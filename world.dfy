/** The dairy ledger's records and its world state: a map from key to a stored
    record, with the read operations and, as pure functions, the state each
    write operation leaves behind. The contract class in ledger.dfy performs
    the writes and is proved against these functions. */
module WorldState {
  import opened Decimal
  import opened Scores

  datatype Option<T> = None | Some(value: T)

  /** The one error a read reports: "<key> does not exist". */
  datatype Error = NotFound(key: string)

  datatype Result<T> = Ok(value: T) | Err(error: Error) {
    /** A failed query becomes a nil record, as in QueryAll. */
    function ToOption(): Option<T> {
      if Ok? then Some(value) else None
    }
  }

  /** What a write-or-fail contract function returns: nil or an error. */
  datatype Outcome = Pass | Fail(error: Error)

  datatype Commodity = Commodity(
    id: string,
    trustScore: real,
    owners: seq<string>,      // ownership history; the current owner is last
    readings: real,
    idealTemp: real,
    parentsIds: seq<string>)  // IDs of the commodities it was produced from

  datatype Participant = Participant(id: string, reputationScore: real, deviceIds: seq<string>)

  datatype Device = Device(id: string, devType: string)

  /** A stored record, tagged with its kind. */
  datatype Entity = Com(com: Commodity) | Part(part: Participant) | Dev(dev: Device) {
    function Id(): string {
      match this
      case Com(c) => c.id
      case Part(p) => p.id
      case Dev(d) => d.id
    }
  }

  /** The world state: every key that has been written and not deleted. */
  type World = map<string, Entity>

  /** Reading a stored record as a commodity. The three record shapes share
      only their "id" field, so a record of another kind reads back as a
      commodity carrying that ID and zero values everywhere else. */
  function AsCommodity(e: Entity): (c: Commodity)
    ensures c.id == e.Id()
    ensures e.Com? ==> c == e.com
    ensures !e.Com? ==> c.owners == [] && c.parentsIds == []
    ensures !e.Com? ==> c.trustScore == 0.0 && c.readings == 0.0 && c.idealTemp == 0.0
  {
    match e
    case Com(c) => c
    case _ => Commodity(e.Id(), 0.0, [], 0.0, 0.0, [])
  }

  function AsParticipant(e: Entity): (p: Participant)
    ensures p.id == e.Id()
    ensures e.Part? ==> p == e.part
    ensures !e.Part? ==> p.reputationScore == 0.0 && p.deviceIds == []
  {
    match e
    case Part(p) => p
    case _ => Participant(e.Id(), 0.0, [])
  }

  function AsDevice(e: Entity): (d: Device)
    ensures d.id == e.Id()
    ensures e.Dev? ==> d == e.dev
    ensures !e.Dev? ==> d.devType == ""
  {
    match e
    case Dev(d) => d
    case _ => Device(e.Id(), "")
  }

  // ---------------------------------------------------------------- queries

  function QueryCom(w: World, comID: string): (r: Result<Commodity>)
    ensures r.Err? <==> comID !in w
    ensures r.Err? ==> r.error == NotFound(comID)
    ensures r.Ok? ==> r.value.id == w[comID].Id()
    ensures comID in w && w[comID].Com? ==> r == Ok(w[comID].com)
  {
    if comID !in w then Err(NotFound(comID)) else Ok(AsCommodity(w[comID]))
  }

  function QueryPart(w: World, partID: string): (r: Result<Participant>)
    ensures r.Err? <==> partID !in w
    ensures r.Err? ==> r.error == NotFound(partID)
    ensures r.Ok? ==> r.value.id == w[partID].Id()
    ensures partID in w && w[partID].Part? ==> r == Ok(w[partID].part)
  {
    if partID !in w then Err(NotFound(partID)) else Ok(AsParticipant(w[partID]))
  }

  function QueryDev(w: World, devID: string): (r: Result<Device>)
    ensures r.Err? <==> devID !in w
    ensures r.Err? ==> r.error == NotFound(devID)
    ensures r.Ok? ==> r.value.id == w[devID].Id()
    ensures devID in w && w[devID].Dev? ==> r == Ok(w[devID].dev)
  {
    if devID !in w then Err(NotFound(devID)) else Ok(AsDevice(w[devID]))
  }

  /** A fixed-key lookup result; `record` is None where the query failed. */
  datatype Entry<T> = Entry(key: string, record: Option<T>)

  datatype QueryResultAll = QueryResultAll(
    coms: seq<Entry<Commodity>>,
    parts: seq<Entry<Participant>>,
    devs: seq<Entry<Device>>)

  /** A seed-style key: the prefix followed by a decimal number. */
  function Key(prefix: string, n: nat): string {
    prefix + Itoa(n)
  }

  /** QueryAll reads the fixed keys COM1..COM4, PART1..PART4 and DEV1..DEV4,
      ignoring errors: an absent key yields a nil record, never a failure. */
  function QueryAll(w: World): (r: QueryResultAll)
    ensures |r.coms| == 4 && |r.parts| == 4 && |r.devs| == 4
    ensures forall i :: 0 <= i < 4 ==>
      r.coms[i].key == Key("COM", i + 1) && r.parts[i].key == Key("PART", i + 1) && r.devs[i].key == Key("DEV", i + 1)
    ensures forall i :: 0 <= i < 4 ==>
      (r.coms[i].record.None? <==> r.coms[i].key !in w) &&
      (r.coms[i].record.Some? ==> r.coms[i].record.value == AsCommodity(w[r.coms[i].key]))
    ensures forall i :: 0 <= i < 4 ==>
      (r.parts[i].record.None? <==> r.parts[i].key !in w) &&
      (r.parts[i].record.Some? ==> r.parts[i].record.value == AsParticipant(w[r.parts[i].key]))
    ensures forall i :: 0 <= i < 4 ==>
      (r.devs[i].record.None? <==> r.devs[i].key !in w) &&
      (r.devs[i].record.Some? ==> r.devs[i].record.value == AsDevice(w[r.devs[i].key]))
  {
    QueryResultAll(
      seq(4, i requires 0 <= i < 4 => Entry(Key("COM", i + 1), QueryCom(w, Key("COM", i + 1)).ToOption())),
      seq(4, i requires 0 <= i < 4 => Entry(Key("PART", i + 1), QueryPart(w, Key("PART", i + 1)).ToOption())),
      seq(4, i requires 0 <= i < 4 => Entry(Key("DEV", i + 1), QueryDev(w, Key("DEV", i + 1)).ToOption())))
  }

  // ----------------------------------------------------------------- create

  /** The record CreateCom writes: a root commodity with a single owner. */
  function NewCommodity(id: string, score: real, owner: string, readings: real, ideal: real): (c: Commodity)
    ensures c.id == id && c.trustScore == score && c.readings == readings && c.idealTemp == ideal
    ensures c.owners == [owner] && c.parentsIds == []
  {
    Commodity(id, score, [owner], readings, ideal, [])
  }

  /** Every stored commodity has at least one owner. */
  ghost predicate OwnersNonEmpty(w: World) {
    forall k :: k in w && w[k].Com? ==> w[k].com.owners != []
  }

  /** Reading back what CreateCom wrote gives every field as created. */
  lemma CreateComThenQuery(w: World, id: string, score: real, owner: string, readings: real, ideal: real)
    ensures var w' := w[id := Com(NewCommodity(id, score, owner, readings, ideal))];
      && QueryCom(w', id) == Ok(Commodity(id, score, [owner], readings, ideal, []))
      && (forall k :: k != id ==> QueryCom(w', k) == QueryCom(w, k))
      && (OwnersNonEmpty(w) ==> OwnersNonEmpty(w'))
  {
  }

  // ------------------------------------------------------------------ trade

  /** TradeCom: read the commodity (failing if absent), append the new owner,
      write it back under the same key. */
  function Traded(w: World, comNumber: string, newOwner: string): (r: Result<World>)
    ensures r.Err? <==> comNumber !in w
    ensures r.Err? ==> r.error == NotFound(comNumber)
  {
    match QueryCom(w, comNumber)
    case Err(e) => Err(e)
    case Ok(com) => Ok(w[comNumber := Com(com.(owners := com.owners + [newOwner]))])
  }

  /** A successful trade appends exactly the new owner to the owner history
      and changes nothing else: no other field, no other key. */
  lemma TradeAppendsOwner(w: World, comNumber: string, newOwner: string)
    requires comNumber in w
    ensures Traded(w, comNumber, newOwner).Ok?
    ensures var w' := Traded(w, comNumber, newOwner).value;
      var before := AsCommodity(w[comNumber]);
      && w'.Keys == w.Keys
      && (forall k :: k in w && k != comNumber ==> w'[k] == w[k])
      && w'[comNumber].Com?
      && w'[comNumber].com.owners == before.owners + [newOwner]
      && |w'[comNumber].com.owners| == |before.owners| + 1
      && w'[comNumber].com.owners[|before.owners|] == newOwner
      && w'[comNumber].com == before.(owners := w'[comNumber].com.owners)
  {
  }

  /** Trading preserves "every commodity has an owner". */
  lemma TradeKeepsOwnersNonEmpty(w: World, comNumber: string, newOwner: string)
    requires OwnersNonEmpty(w)
    ensures Traded(w, comNumber, newOwner).Ok? ==> OwnersNonEmpty(Traded(w, comNumber, newOwner).value)
  {
  }

  /** A run of trades of one commodity, to each owner of `newOwners` in turn. */
  function TradedAll(w: World, comNumber: string, newOwners: seq<string>): Result<World>
  {
    if newOwners == [] then Ok(w)
    else
      match TradedAll(w, comNumber, newOwners[..|newOwners| - 1])
      case Err(e) => Err(e)
      case Ok(w1) => Traded(w1, comNumber, newOwners[|newOwners| - 1])
  }

  /** The owner list is an append-only log: after any run of trades it is the
      original list followed by the new owners in trade order, and no other
      key has changed. */
  lemma {:induction false} TradeHistory(w: World, comNumber: string, newOwners: seq<string>)
    requires comNumber in w
    ensures TradedAll(w, comNumber, newOwners).Ok?
    ensures var w' := TradedAll(w, comNumber, newOwners).value;
      && w'.Keys == w.Keys
      && (forall k :: k in w && k != comNumber ==> w'[k] == w[k])
      && AsCommodity(w'[comNumber]).owners == AsCommodity(w[comNumber]).owners + newOwners
  {
    if newOwners != [] {
      var init := newOwners[..|newOwners| - 1];
      TradeHistory(w, comNumber, init);
      var w1 := TradedAll(w, comNumber, init).value;
      TradeAppendsOwner(w1, comNumber, newOwners[|newOwners| - 1]);
      assert init + [newOwners[|newOwners| - 1]] == newOwners;
    }
  }

  // ---------------------------------------------------------------- produce

  /** What ProduceCom needs in order not to panic: at least one parent (no
      division by zero), every parent key present (no nil dereference), and a
      first parent with an owner (no index out of range). */
  predicate ProducePre(w: World, comNumbers: seq<string>): (ok: bool)
    ensures ok <==>
      && |comNumbers| > 0
      && (forall i :: 0 <= i < |comNumbers| ==> QueryCom(w, comNumbers[i]).Ok?)
      && QueryCom(w, comNumbers[0]).value.owners != []
  {
    && |comNumbers| > 0
    && AllPresent(w, comNumbers)
    && AsCommodity(w[comNumbers[0]]).owners != []
  }

  predicate AllPresent(w: World, keys: seq<string>) {
    forall i :: 0 <= i < |keys| ==> keys[i] in w
  }

  /** The first n parent records, read in the order of their keys. */
  function Parents(w: World, comNumbers: seq<string>, n: nat): (cs: seq<Commodity>)
    requires n <= |comNumbers| && AllPresent(w, comNumbers)
    ensures |cs| == n
    ensures forall i :: 0 <= i < n ==> cs[i] == AsCommodity(w[comNumbers[i]])
  {
    if n == 0 then [] else Parents(w, comNumbers, n - 1) + [QueryCom(w, comNumbers[n - 1]).value]
  }

  function TrustScores(cs: seq<Commodity>): (s: seq<real>)
    ensures |s| == |cs|
    ensures forall i :: 0 <= i < |cs| ==> s[i] == cs[i].trustScore
  {
    if cs == [] then [] else TrustScores(cs[..|cs| - 1]) + [cs[|cs| - 1].trustScore]
  }

  function RecordIds(cs: seq<Commodity>): (ids: seq<string>)
    ensures |ids| == |cs|
    ensures forall i :: 0 <= i < |cs| ==> ids[i] == cs[i].id
  {
    if cs == [] then [] else RecordIds(cs[..|cs| - 1]) + [cs[|cs| - 1].id]
  }

  /** The commodity ProduceCom writes at `id`: the caller's ID and ideal
      temperature, zero readings, one owner (the current owner of the FIRST
      parent), the parents' record IDs in the order of their keys (IDs, which
      need not be the keys), and the parents' summed score over their count. */
  function Produced(w: World, comNumbers: seq<string>, id: string, ideal: real): (c: Commodity)
    requires ProducePre(w, comNumbers)
    ensures c.id == id && c.readings == 0.0 && c.idealTemp == ideal
    ensures |c.parentsIds| == |comNumbers|
    ensures forall i :: 0 <= i < |comNumbers| ==> c.parentsIds[i] == QueryCom(w, comNumbers[i]).value.id
    ensures var first := QueryCom(w, comNumbers[0]).value.owners; c.owners == [first[|first| - 1]]
    ensures c.trustScore == Mean(TrustScores(Parents(w, comNumbers, |comNumbers|)))
  {
    var coms := Parents(w, comNumbers, |comNumbers|);
    Commodity(id, Mean(TrustScores(coms)), [coms[0].owners[|coms[0].owners| - 1]], 0.0, ideal, RecordIds(coms))
  }

  /** Produced spelled out from what ProduceCom's loop accumulates. */
  lemma ProducedFromParents(w: World, comNumbers: seq<string>, id: string, ideal: real,
                            coms: seq<Commodity>, trustSum: real, parentsIds: seq<string>)
    requires ProducePre(w, comNumbers)
    requires coms == Parents(w, comNumbers, |comNumbers|)
    requires trustSum == Sum(TrustScores(coms))
    requires parentsIds == RecordIds(coms)
    ensures Produced(w, comNumbers, id, ideal)
      == Commodity(id, trustSum / (|coms| as real), [coms[0].owners[|coms[0].owners| - 1]], 0.0, ideal, parentsIds)
  {
  }

  /** The produced trust score stays within any bounds all parents' scores
      share (scores in [0, 1] give a score in [0, 1]); in particular it lies
      between the lowest and the highest parent score. */
  lemma ProducedScoreWithinParents(w: World, comNumbers: seq<string>, id: string, ideal: real, lo: real, hi: real)
    requires ProducePre(w, comNumbers)
    requires forall i :: 0 <= i < |comNumbers| ==> lo <= QueryCom(w, comNumbers[i]).value.trustScore <= hi
    ensures lo <= Produced(w, comNumbers, id, ideal).trustScore <= hi
    ensures var s := TrustScores(Parents(w, comNumbers, |comNumbers|));
      Min(s) <= Produced(w, comNumbers, id, ideal).trustScore <= Max(s)
  {
    var s := TrustScores(Parents(w, comNumbers, |comNumbers|));
    MeanWithinBounds(s, lo, hi);
    MeanBetweenMinMax(s);
  }

  /** Production is non-destructive: only key `id` is written, so every
      parent stored under another key reads back exactly as before, and the
      "every commodity has an owner" invariant is kept. */
  lemma ProduceLeavesParents(w: World, comNumbers: seq<string>, id: string, ideal: real)
    requires ProducePre(w, comNumbers)
    ensures var w' := w[id := Com(Produced(w, comNumbers, id, ideal))];
      && w'.Keys == w.Keys + {id}
      && (forall k :: k in w && k != id ==> w'[k] == w[k])
      && (forall i :: 0 <= i < |comNumbers| && comNumbers[i] != id ==>
            QueryCom(w', comNumbers[i]) == QueryCom(w, comNumbers[i]))
      && (OwnersNonEmpty(w) ==> OwnersNonEmpty(w'))
  {
  }

  /** Under the owner invariant, ProduceCom's demand on the first parent is
      just that it is a commodity. */
  lemma ProducePreUnderInvariant(w: World, comNumbers: seq<string>)
    requires OwnersNonEmpty(w)
    ensures ProducePre(w, comNumbers) <==>
      |comNumbers| > 0 && AllPresent(w, comNumbers) && w[comNumbers[0]].Com?
  {
  }

  /** Two parents scored 0.6 and 0.8 produce a commodity scored 0.7, owned by
      the first parent's current owner, with both parents' IDs as lineage. */
  lemma ProduceTwoParents(a: Commodity, b: Commodity)
    requires a.trustScore == 0.6 && b.trustScore == 0.8 && a.owners == ["PART1", "PART3"]
    ensures var w := map["COM1" := Com(a), "COM2" := Com(b)];
      var c := Produced(w, ["COM1", "COM2"], "COM5", 4.0);
      && c.trustScore == 0.7
      && c.owners == ["PART3"]
      && c.parentsIds == [a.id, b.id]
  {
    var w := map["COM1" := Com(a), "COM2" := Com(b)];
    var keys := ["COM1", "COM2"];
    assert Parents(w, keys, 2) == [a, b];
    var s := TrustScores(Parents(w, keys, 2));
    assert s == [0.6, 0.8];
    assert s[..1] == [0.6];
    assert Sum(s) == 1.4 by {
      assert Sum(s[..1]) == 0.6 by { assert s[..1][..0] == []; }
    }
  }
}

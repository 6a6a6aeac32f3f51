/** The dairy smart contract's write operations. The world state that the
    contract reaches through its transaction context is held here as one map
    field, which each operation updates in place the way PutState and DelState
    do; reads are the functions QueryCom, QueryPart and QueryDev of WorldState
    applied to that map. Each method is proved against the pure function of
    WorldState or Seeding that gives the state it must leave behind. */
module Contract {
  import opened Decimal
  import opened Scores
  import opened WorldState
  import opened Seeding

  class Ledger {
    var state: World

    constructor (initial: World)
      ensures state == initial
    {
      state := initial;
    }

    /** Seeds four commodities, four participants and four devices, the i-th
        of each kind (counting from 0) under prefix + i. */
    method InitLedger()
      modifies this
      ensures state == Seeded(old(state))
      ensures OwnersNonEmpty(old(state)) ==> OwnersNonEmpty(state)
    {
      var commodities := SeedCommodities();
      ghost var ces := ComEntities(commodities);
      for i := 0 to |commodities|
        invariant state == PutIndexed(old(state), "COM", 0, ces[..i])
      {
        state := state["COM" + Itoa(i) := Com(commodities[i])];
        assert ces[..i + 1][..i] == ces[..i];
      }
      assert ces[..|ces|] == ces;
      ghost var w1 := state;

      var participants := SeedParticipants();
      ghost var pes := PartEntities(participants);
      for i := 0 to |participants|
        invariant state == PutIndexed(w1, "PART", 0, pes[..i])
      {
        state := state["PART" + Itoa(i) := Part(participants[i])];
        assert pes[..i + 1][..i] == pes[..i];
      }
      assert pes[..|pes|] == pes;
      ghost var w2 := state;

      var devices := SeedDevices();
      ghost var des := DevEntities(devices);
      for i := 0 to |devices|
        invariant state == PutIndexed(w2, "DEV", 0, des[..i])
      {
        state := state["DEV" + Itoa(i) := Dev(devices[i])];
        assert des[..i + 1][..i] == des[..i];
      }
      assert des[..|des|] == des;

      if OwnersNonEmpty(old(state)) {
        SeededFromKeepsOwnersNonEmpty(old(state), 0);
      }
    }

    /** Writes a root commodity at `id` without checking what was there. */
    method CreateCom(id: string, score: real, owner: string, readings: real, ideal: real)
      modifies this
      ensures state == old(state)[id := Com(NewCommodity(id, score, owner, readings, ideal))]
      ensures QueryCom(state, id) == Ok(Commodity(id, score, [owner], readings, ideal, []))
      ensures forall k :: k != id ==> QueryCom(state, k) == QueryCom(old(state), k)
      ensures OwnersNonEmpty(old(state)) ==> OwnersNonEmpty(state)
    {
      var com := Commodity(id, score, [owner], readings, ideal, []);
      state := state[id := Com(com)];
    }

    /** Writes a participant with no devices at `id`, overwriting any record there. */
    method CreatePart(id: string, score: real)
      modifies this
      ensures state == old(state)[id := Part(Participant(id, score, []))]
      ensures QueryPart(state, id) == Ok(Participant(id, score, []))
      ensures forall k :: k != id ==> QueryPart(state, k) == QueryPart(old(state), k)
      ensures OwnersNonEmpty(old(state)) ==> OwnersNonEmpty(state)
    {
      var part := Participant(id, score, []);
      state := state[id := Part(part)];
    }

    /** Writes a device at `id`, overwriting any record there. */
    method CreateDev(id: string, devType: string)
      modifies this
      ensures state == old(state)[id := Dev(Device(id, devType))]
      ensures QueryDev(state, id) == Ok(Device(id, devType))
      ensures forall k :: k != id ==> QueryDev(state, k) == QueryDev(old(state), k)
      ensures OwnersNonEmpty(old(state)) ==> OwnersNonEmpty(state)
    {
      var dev := Device(id, devType);
      state := state[id := Dev(dev)];
    }

    /** Removes whatever is stored at `id`; an absent key is not an error. */
    method DeleteData(id: string)
      modifies this
      ensures state == old(state) - {id}
      ensures QueryCom(state, id) == Err(NotFound(id))
      ensures QueryPart(state, id) == Err(NotFound(id))
      ensures QueryDev(state, id) == Err(NotFound(id))
      ensures OwnersNonEmpty(old(state)) ==> OwnersNonEmpty(state)
    {
      state := state - {id};
    }

    /** Appends `newOwner` to the owner list of the commodity at `comNumber`;
        fails with the query's error, writing nothing, when the key is absent. */
    method TradeCom(comNumber: string, newOwner: string) returns (err: Outcome)
      modifies this
      ensures comNumber !in old(state) ==> err == Fail(NotFound(comNumber)) && state == old(state)
      ensures comNumber in old(state) ==> err == Pass && Traded(old(state), comNumber, newOwner) == Ok(state)
      ensures err == Pass ==>
        && state.Keys == old(state).Keys
        && (forall k :: k in old(state) && k != comNumber ==> state[k] == old(state)[k])
        && AsCommodity(state[comNumber]).owners == AsCommodity(old(state)[comNumber]).owners + [newOwner]
      ensures OwnersNonEmpty(old(state)) ==> OwnersNonEmpty(state)
    {
      var q := QueryCom(state, comNumber);
      if q.Err? {
        return Fail(q.error);
      }
      var com := q.value;
      com := com.(owners := com.owners + [newOwner]);
      state := state[comNumber := Com(com)];
      err := Pass;
    }

    /** Writes at `id` a commodity produced from the parents stored under
        `comNumbers`: their mean trust score, the first parent's current
        owner, their IDs as lineage. Only key `id` changes. */
    method ProduceCom(comNumbers: seq<string>, id: string, ideal: real)
      requires ProducePre(state, comNumbers)
      modifies this
      ensures state == old(state)[id := Com(Produced(old(state), comNumbers, id, ideal))]
      ensures forall k :: k in old(state) && k != id ==> state[k] == old(state)[k]
      ensures OwnersNonEmpty(old(state)) ==> OwnersNonEmpty(state)
    {
      ghost var w := state;
      var coms, trustSum, parentsIds := ReadParents(state, comNumbers);
      var trustScore := trustSum / (|coms| as real);
      var newCom := Commodity(id, trustScore, [coms[0].owners[|coms[0].owners| - 1]], 0.0, ideal, parentsIds);
      ProducedFromParents(w, comNumbers, id, ideal, coms, trustSum, parentsIds);
      state := state[id := Com(newCom)];
      ProduceLeavesParents(w, comNumbers, id, ideal);
    }
  }

  /** ProduceCom's loop: reads the parents under `comNumbers` in order,
      adding up their trust scores and collecting their record IDs. */
  method ReadParents(w: World, comNumbers: seq<string>) returns (coms: seq<Commodity>, trustSum: real, parentsIds: seq<string>)
    requires AllPresent(w, comNumbers)
    ensures coms == Parents(w, comNumbers, |comNumbers|)
    ensures trustSum == Sum(TrustScores(coms))
    ensures parentsIds == RecordIds(coms)
  {
    coms, trustSum, parentsIds := [], 0.0, [];
    for i := 0 to |comNumbers|
      invariant coms == Parents(w, comNumbers, i)
      invariant trustSum == Sum(TrustScores(coms))
      invariant parentsIds == RecordIds(coms)
    {
      var com := QueryCom(w, comNumbers[i]).value;
      ghost var before := coms;
      coms := coms + [com];
      assert coms[..|coms| - 1] == before;
      trustSum := trustSum + com.trustScore;
      parentsIds := parentsIds + [com.id];
    }
  }
}

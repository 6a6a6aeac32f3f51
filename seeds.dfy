/** The ledger's seed records and the keys InitLedger stores them under. */
module Seeding {
  import opened Decimal
  import opened WorldState

  /** Four owned root commodities; the i-th has ID COM(i + 1). */
  function SeedCommodities(): (cs: seq<Commodity>)
    ensures |cs| == 4
    ensures forall i :: 0 <= i < 4 ==> cs[i].id == Key("COM", i + 1) && cs[i].owners != [] && cs[i].parentsIds == []
  {
    [ Commodity("COM1", 5.0, ["PART1"], 25.0, 10.0, []),
      Commodity("COM2", 5.0, ["PART2"], 25.0, 20.0, []),
      Commodity("COM3", 5.0, ["PART3"], 25.0, 30.0, []),
      Commodity("COM4", 5.0, ["PART4"], 25.0, 40.0, []) ]
  }

  /** Four participants; the i-th has ID PART(i + 1) and owns device DEV(i + 1). */
  function SeedParticipants(): (ps: seq<Participant>)
    ensures |ps| == 4
    ensures forall i :: 0 <= i < 4 ==> ps[i].id == Key("PART", i + 1) && ps[i].deviceIds == [Key("DEV", i + 1)]
  {
    assert Key("DEV", 1) == "DEV1" && Key("DEV", 2) == "DEV2" && Key("DEV", 3) == "DEV3" && Key("DEV", 4) == "DEV4";
    [ Participant("PART1", 1.0, ["DEV1"]),
      Participant("PART2", 1.0, ["DEV2"]),
      Participant("PART3", 2.0, ["DEV3"]),
      Participant("PART4", 3.0, ["DEV4"]) ]
  }

  /** Four temperature sensors; the i-th has ID DEV(i + 1). */
  function SeedDevices(): (ds: seq<Device>)
    ensures |ds| == 4
    ensures forall i :: 0 <= i < 4 ==> ds[i].id == Key("DEV", i + 1) && ds[i].devType == "Temp"
  {
    [ Device("DEV1", "Temp"), Device("DEV2", "Temp"), Device("DEV3", "Temp"), Device("DEV4", "Temp") ]
  }

  function ComEntities(cs: seq<Commodity>): (es: seq<Entity>)
    ensures |es| == |cs| && forall i :: 0 <= i < |cs| ==> es[i] == Com(cs[i])
  {
    seq(|cs|, i requires 0 <= i < |cs| => Com(cs[i]))
  }

  function PartEntities(ps: seq<Participant>): (es: seq<Entity>)
    ensures |es| == |ps| && forall i :: 0 <= i < |ps| ==> es[i] == Part(ps[i])
  {
    seq(|ps|, i requires 0 <= i < |ps| => Part(ps[i]))
  }

  function DevEntities(ds: seq<Device>): (es: seq<Entity>)
    ensures |es| == |ds| && forall i :: 0 <= i < |ds| ==> es[i] == Dev(ds[i])
  {
    seq(|ds|, i requires 0 <= i < |ds| => Dev(ds[i]))
  }

  /** The world after writing es[0], es[1], ... in turn under the keys
      prefix + (base), prefix + (base + 1), ... */
  function PutIndexed(w: World, prefix: string, base: nat, es: seq<Entity>): World
  {
    if es == [] then w
    else PutIndexed(w, prefix, base, es[..|es| - 1])[Key(prefix, base + |es| - 1) := es[|es| - 1]]
  }

  /** Keys with the same prefix are equal only for equal numbers. */
  lemma KeyInjective(prefix: string, a: nat, b: nat)
    requires Key(prefix, a) == Key(prefix, b)
    ensures a == b
  {
    assert Itoa(a) == Key(prefix, a)[|prefix|..];
    assert Itoa(b) == Key(prefix, b)[|prefix|..];
    ItoaInjective(a, b);
  }

  /** Keys whose prefixes start with different letters never collide. */
  lemma KeysApart(p: string, q: string, a: nat, b: nat)
    requires |p| > 0 && |q| > 0 && p[0] != q[0]
    ensures Key(p, a) != Key(q, b)
  {
    assert Key(p, a)[0] == p[0];
    assert Key(q, b)[0] == q[0];
  }

  /** Each written record sits under its own key: prefix + (base + j) holds es[j]. */
  lemma {:induction false} PutIndexedAt(w: World, prefix: string, base: nat, es: seq<Entity>, j: nat)
    requires j < |es|
    ensures Key(prefix, base + j) in PutIndexed(w, prefix, base, es)
    ensures PutIndexed(w, prefix, base, es)[Key(prefix, base + j)] == es[j]
  {
    var last := |es| - 1;
    if j < last {
      PutIndexedAt(w, prefix, base, es[..last], j);
      if Key(prefix, base + j) == Key(prefix, base + last) {
        KeyInjective(prefix, base + j, base + last);
      }
    }
  }

  /** A key not among those written keeps its presence and its record. */
  lemma {:induction false} PutIndexedElsewhere(w: World, prefix: string, base: nat, es: seq<Entity>, k: string)
    requires forall n :: base <= n < base + |es| ==> k != Key(prefix, n)
    ensures k in PutIndexed(w, prefix, base, es) <==> k in w
    ensures k in w ==> PutIndexed(w, prefix, base, es)[k] == w[k]
  {
    if es != [] {
      PutIndexedElsewhere(w, prefix, base, es[..|es| - 1], k);
    }
  }

  /** Writing records that all have an owner keeps "every commodity has an owner". */
  lemma {:induction false} PutIndexedKeepsOwnersNonEmpty(w: World, prefix: string, base: nat, es: seq<Entity>)
    requires OwnersNonEmpty(w)
    requires forall i :: 0 <= i < |es| && es[i].Com? ==> es[i].com.owners != []
    ensures OwnersNonEmpty(PutIndexed(w, prefix, base, es))
  {
    if es != [] {
      PutIndexedKeepsOwnersNonEmpty(w, prefix, base, es[..|es| - 1]);
    }
  }

  /** The seed writes, numbering keys from `base`. */
  function SeededFrom(w: World, base: nat): World
  {
    var w1 := PutIndexed(w, "COM", base, ComEntities(SeedCommodities()));
    var w2 := PutIndexed(w1, "PART", base, PartEntities(SeedParticipants()));
    PutIndexed(w2, "DEV", base, DevEntities(SeedDevices()))
  }

  /** InitLedger as written: the i-th seed (from 0) goes under "COM" + i,
      "PART" + i and "DEV" + i, one less than the number in its ID; so the
      first seed of each kind sits under a key that is not its ID. */
  function Seeded(w: World): (r: World)
    ensures "COM0" in r && r["COM0"] == Com(SeedCommodities()[0]) && r["COM0"].Id() == "COM1"
    ensures "PART0" in r && r["PART0"] == Part(SeedParticipants()[0]) && r["PART0"].Id() == "PART1"
    ensures "DEV0" in r && r["DEV0"] == Dev(SeedDevices()[0]) && r["DEV0"].Id() == "DEV1"
  {
    SeededFromAt(w, 0, 0);
    assert Key("COM", 0) == "COM0" && Key("PART", 0) == "PART0" && Key("DEV", 0) == "DEV0";
    SeededFrom(w, 0)
  }

  /** InitLedger with keys equal to the records' IDs, as QueryAll expects:
      the first seed of each kind sits under its own ID. */
  function SeededByIds(w: World): (r: World)
    ensures "COM1" in r && r["COM1"] == Com(SeedCommodities()[0]) && r["COM1"].Id() == "COM1"
    ensures "PART1" in r && r["PART1"] == Part(SeedParticipants()[0]) && r["PART1"].Id() == "PART1"
    ensures "DEV1" in r && r["DEV1"] == Dev(SeedDevices()[0]) && r["DEV1"].Id() == "DEV1"
  {
    SeededFromAt(w, 1, 0);
    assert Key("COM", 1) == "COM1" && Key("PART", 1) == "PART1" && Key("DEV", 1) == "DEV1";
    SeededFrom(w, 1)
  }

  /** Where the seeds land: after seeding from `base`, key prefix + (base + i)
      holds the i-th seed of that kind. */
  lemma SeededFromAt(w: World, base: nat, i: nat)
    requires i < 4
    ensures var w' := SeededFrom(w, base);
      && Key("COM", base + i) in w' && w'[Key("COM", base + i)] == Com(SeedCommodities()[i])
      && Key("PART", base + i) in w' && w'[Key("PART", base + i)] == Part(SeedParticipants()[i])
      && Key("DEV", base + i) in w' && w'[Key("DEV", base + i)] == Dev(SeedDevices()[i])
  {
    var ces, pes, des := ComEntities(SeedCommodities()), PartEntities(SeedParticipants()), DevEntities(SeedDevices());
    var w1 := PutIndexed(w, "COM", base, ces);
    var w2 := PutIndexed(w1, "PART", base, pes);
    PutIndexedAt(w, "COM", base, ces, i);
    PutIndexedAt(w1, "PART", base, pes, i);
    PutIndexedAt(w2, "DEV", base, des, i);
    forall n | base <= n < base + 4 ensures Key("COM", base + i) != Key("PART", n) {
      KeysApart("COM", "PART", base + i, n);
    }
    forall n | base <= n < base + 4 ensures Key("COM", base + i) != Key("DEV", n) {
      KeysApart("COM", "DEV", base + i, n);
    }
    forall n | base <= n < base + 4 ensures Key("PART", base + i) != Key("DEV", n) {
      KeysApart("PART", "DEV", base + i, n);
    }
    PutIndexedElsewhere(w1, "PART", base, pes, Key("COM", base + i));
    PutIndexedElsewhere(w2, "DEV", base, des, Key("COM", base + i));
    PutIndexedElsewhere(w2, "DEV", base, des, Key("PART", base + i));
  }

  /** A key outside the seed key scheme is untouched by seeding. */
  lemma SeededFromElsewhere(w: World, base: nat, k: string)
    requires forall n :: base <= n < base + 4 ==> k != Key("COM", n) && k != Key("PART", n) && k != Key("DEV", n)
    ensures k in SeededFrom(w, base) <==> k in w
    ensures k in w ==> SeededFrom(w, base)[k] == w[k]
  {
    var w1 := PutIndexed(w, "COM", base, ComEntities(SeedCommodities()));
    var w2 := PutIndexed(w1, "PART", base, PartEntities(SeedParticipants()));
    PutIndexedElsewhere(w, "COM", base, ComEntities(SeedCommodities()), k);
    PutIndexedElsewhere(w1, "PART", base, PartEntities(SeedParticipants()), k);
    PutIndexedElsewhere(w2, "DEV", base, DevEntities(SeedDevices()), k);
  }

  /** Seeding keeps "every commodity has an owner". */
  lemma SeededFromKeepsOwnersNonEmpty(w: World, base: nat)
    requires OwnersNonEmpty(w)
    ensures OwnersNonEmpty(SeededFrom(w, base))
  {
    var w1 := PutIndexed(w, "COM", base, ComEntities(SeedCommodities()));
    var w2 := PutIndexed(w1, "PART", base, PartEntities(SeedParticipants()));
    PutIndexedKeepsOwnersNonEmpty(w, "COM", base, ComEntities(SeedCommodities()));
    PutIndexedKeepsOwnersNonEmpty(w1, "PART", base, PartEntities(SeedParticipants()));
    PutIndexedKeepsOwnersNonEmpty(w2, "DEV", base, DevEntities(SeedDevices()));
  }

  /** As written, InitLedger and QueryAll disagree: on a ledger that has no
      COM4, PART4 or DEV4 entry, QueryAll after InitLedger returns nil in the
      fourth entry of each kind, and its entry for key "COM" + n holds the seed
      whose ID is "COM" + (n + 1) (for key COM1, the record with ID COM2). */
  lemma SeededQueryAllOffByOne(w: World)
    requires "COM4" !in w && "PART4" !in w && "DEV4" !in w
    ensures var r := QueryAll(Seeded(w));
      && r.coms[3].record == None && r.parts[3].record == None && r.devs[3].record == None
      && (forall i :: 0 <= i < 3 ==>
            && r.coms[i].record == Some(SeedCommodities()[i + 1])
            && r.parts[i].record == Some(SeedParticipants()[i + 1])
            && r.devs[i].record == Some(SeedDevices()[i + 1]))
      && r.coms[0].record.value.id == "COM2"
  {
    SeededFourthAbsent(w);
    SeededShifted(w);
  }

  /** Seeding as written never writes COM4, PART4 or DEV4. */
  lemma SeededFourthAbsent(w: World)
    requires "COM4" !in w && "PART4" !in w && "DEV4" !in w
    ensures "COM4" !in Seeded(w) && "PART4" !in Seeded(w) && "DEV4" !in Seeded(w)
  {
    assert Key("COM", 4) == "COM4" && Key("PART", 4) == "PART4" && Key("DEV", 4) == "DEV4";
    forall n | 0 <= n < 4
      ensures Key("COM", 4) != Key("COM", n) && Key("COM", 4) != Key("PART", n) && Key("COM", 4) != Key("DEV", n)
      ensures Key("PART", 4) != Key("COM", n) && Key("PART", 4) != Key("PART", n) && Key("PART", 4) != Key("DEV", n)
      ensures Key("DEV", 4) != Key("COM", n) && Key("DEV", 4) != Key("PART", n) && Key("DEV", 4) != Key("DEV", n)
    {
      if Key("COM", 4) == Key("COM", n) { KeyInjective("COM", 4, n); }
      if Key("PART", 4) == Key("PART", n) { KeyInjective("PART", 4, n); }
      if Key("DEV", 4) == Key("DEV", n) { KeyInjective("DEV", 4, n); }
      KeysApart("COM", "PART", 4, n);
      KeysApart("COM", "DEV", 4, n);
      KeysApart("PART", "COM", 4, n);
      KeysApart("PART", "DEV", 4, n);
      KeysApart("DEV", "COM", 4, n);
      KeysApart("DEV", "PART", 4, n);
    }
    SeededFromElsewhere(w, 0, Key("COM", 4));
    SeededFromElsewhere(w, 0, Key("PART", 4));
    SeededFromElsewhere(w, 0, Key("DEV", 4));
  }

  /** Seeding as written puts the seed with ID prefix + (n + 1) under the key
      prefix + n that QueryAll reads as its n-th entry (counting from 0). */
  lemma SeededShifted(w: World)
    ensures var r := QueryAll(Seeded(w));
      forall i :: 0 <= i < 3 ==>
        && r.coms[i].record == Some(SeedCommodities()[i + 1])
        && r.parts[i].record == Some(SeedParticipants()[i + 1])
        && r.devs[i].record == Some(SeedDevices()[i + 1])
  {
    var r := QueryAll(Seeded(w));
    forall i | 0 <= i < 3
      ensures r.coms[i].record == Some(SeedCommodities()[i + 1])
      ensures r.parts[i].record == Some(SeedParticipants()[i + 1])
      ensures r.devs[i].record == Some(SeedDevices()[i + 1])
    {
      SeededFromAt(w, 0, i + 1);
    }
  }

  /** With keys equal to IDs, QueryAll on a freshly seeded ledger returns
      exactly the seed records, each under the key that is its own ID. */
  lemma SeededByIdsQueryAll(w: World)
    ensures var r := QueryAll(SeededByIds(w));
      forall i :: 0 <= i < 4 ==>
        && r.coms[i].record == Some(SeedCommodities()[i]) && r.coms[i].key == SeedCommodities()[i].id
        && r.parts[i].record == Some(SeedParticipants()[i]) && r.parts[i].key == SeedParticipants()[i].id
        && r.devs[i].record == Some(SeedDevices()[i]) && r.devs[i].key == SeedDevices()[i].id
  {
    var r := QueryAll(SeededByIds(w));
    forall i | 0 <= i < 4
      ensures r.coms[i].record == Some(SeedCommodities()[i]) && r.coms[i].key == SeedCommodities()[i].id
      ensures r.parts[i].record == Some(SeedParticipants()[i]) && r.parts[i].key == SeedParticipants()[i].id
      ensures r.devs[i].record == Some(SeedDevices()[i]) && r.devs[i].key == SeedDevices()[i].id
    {
      SeededFromAt(w, 1, i);
    }
  }
}

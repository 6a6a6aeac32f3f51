# Dairy supply-chain ledger, modelled in Dafny

This project models the dairy chaincode (`chaincode/dairy/go/dairy.go`). The
chaincode is a Hyperledger Fabric smart contract. It keeps commodities,
participants and devices in the ledger's key-value world state.

- A **commodity** has an ID, a trust score, an ordered owner history (the
  current owner is last), a sensor reading, an ideal temperature and the IDs
  of the commodities it was produced from.
- A **participant** has an ID, a reputation score and a list of device IDs.
- A **device** has an ID and a type.

The contract's operations:

- `InitLedger` seeds four records of each kind.
- `CreateCom`, `CreatePart` and `CreateDev` write a record at a key, replacing
  whatever was there.
- `DeleteData` removes a key.
- `QueryCom`, `QueryPart` and `QueryDev` read a key and fail when it is absent.
- `QueryAll` reads twelve fixed keys.
- `TradeCom` appends a new owner to a commodity's owner history.
- `ProduceCom` builds a new commodity from a list of parent commodities. It
  takes the mean of their trust scores, the first parent's current owner and
  the parents' IDs as lineage.

Files:

- `decimal.dfy` (module `Decimal`): `Itoa`, which renders the loop index that
  `InitLedger` appends to its key prefixes, and its injectivity.
- `scores.dfy` (module `Scores`): sum, mean, minimum and maximum of trust
  scores. The mean is shown to stay within any bounds the averaged values share.
- `world.dfy` (module `WorldState`): the records, the world state as a
  `map<string, Entity>` (an `Entity` is a record tagged with its kind), the
  three queries and `QueryAll`. It also gives, as pure functions, the state
  that `TradeCom` and `ProduceCom` leave behind, with the lemmas about them.
- `seeds.dfy` (module `Seeding`): the seed records, the keys `InitLedger` puts
  them under, and what `QueryAll` then sees.
- `ledger.dfy` (module `Contract`): class `Ledger`. Its field `state` is the
  world state. Its methods perform the contract's writes in place, with the
  loops of `InitLedger` and, in the module-level method `ReadParents`, of
  `ProduceCom`. Each method's postcondition ties the
  new `state` to the pure function of the old one.

Modelling decisions:

- Reads of another kind's record. The three JSON record shapes share only
  their `"id"` field. So `QueryCom` on a key that holds a participant or a
  device succeeds, and returns a commodity that carries that ID and zero
  values elsewhere (no owners, no parents). `AsCommodity`, `AsParticipant` and
  `AsDevice` model this. It keeps the source's rule that a query fails exactly
  when the key is absent.
- `ProduceCom` discards the query error (`dairy.go:317`). It then
  dereferences the result and indexes the first parent's owners. So it
  panics when:
  - the key list is empty (the index at line 327 fails);
  - a key is absent (nil dereference at line 319);
  - the first parent, read as a commodity, has no owner.
  These are the precondition `ProducePre`. Under the invariant
  `OwnersNonEmpty` ("every stored commodity has an owner"), which every write
  operation preserves, the last condition means "the first parent is a
  commodity".
- `ProduceCom` writes only key `id`. If `id` is itself one of the parent keys,
  that parent is overwritten. Non-destructiveness is therefore stated for the
  parents stored under other keys.
- `ProduceCom` accepts a single parent: the produced record then has that
  parent's score, current owner and ID.
- `ProduceCom`'s loop is the method `ReadParents`, which reads the parents
  and accumulates their score sum and IDs; `ProduceCom` divides and writes.
- Trust scores, readings and temperatures are `real`.

## Model

| member | source | states |
|---|---|---|
| `Decimal.Itoa` | chaincode/dairy/go/dairy.go:71 | The seed-key suffix is a non-empty string of decimal digits with no leading zero. Its last digit is n mod 10, and it has one character exactly when n < 10. |
| `Decimal.ItoaInjective` | chaincode/dairy/go/dairy.go:69-71 | Distinct loop indices print differently, so the seed keys of one kind are distinct. |
| `Scores.SumBounds` | chaincode/dairy/go/dairy.go:316-319 | The accumulated sum of n scores, each within [lo, hi], lies within [n·lo, n·hi]. |
| `Scores.MeanWithinBounds` | chaincode/dairy/go/dairy.go:313-322 | Sum divided by count stays within any bounds that all averaged scores share. |
| `Scores.MeanBetweenMinMax` | chaincode/dairy/go/dairy.go:313-322 | The average lies between the smallest and the largest score averaged. |
| `WorldState.AsCommodity` | chaincode/dairy/go/dairy.go:166-167 | Decoding a stored record as a commodity keeps its ID. A stored commodity comes back unchanged. Another kind comes back with score, reading and ideal temperature 0, no owners and no parents; so a non-commodity parent adds 0 to ProduceCom's score sum. |
| `WorldState.AsParticipant` | chaincode/dairy/go/dairy.go:183-184 | Decoding a stored record as a participant keeps its ID. A stored participant comes back unchanged; another kind comes back with reputation 0 and no devices. |
| `WorldState.AsDevice` | chaincode/dairy/go/dairy.go:200-201 | Decoding a stored record as a device keeps its ID. A stored device comes back unchanged; another kind comes back with an empty type. |
| `WorldState.QueryCom` | chaincode/dairy/go/dairy.go:155-170 | Fails with "does not exist" exactly when the key is absent. Otherwise returns the record under the key, with its ID. A stored commodity is returned as stored. The state is not changed. |
| `WorldState.QueryPart` | chaincode/dairy/go/dairy.go:172-187 | Fails exactly when the key is absent. Otherwise returns the record under the key, with its ID. A stored participant is returned as stored. |
| `WorldState.QueryDev` | chaincode/dairy/go/dairy.go:189-204 | Fails exactly when the key is absent. Otherwise returns the record under the key, with its ID. A stored device is returned as stored. |
| `WorldState.QueryAll` | chaincode/dairy/go/dairy.go:259-293 | Four entries per kind, under keys COM1..COM4, PART1..PART4 and DEV1..DEV4. An entry's record is nil exactly when its key is absent; otherwise it is the record stored there. QueryAll never fails. |
| `WorldState.NewCommodity` | chaincode/dairy/go/dairy.go:113-121 | The record CreateCom writes is a root commodity: the given ID, score, reading and ideal temperature, exactly one owner (the given one) and no parents. |
| `WorldState.CreateComThenQuery` | chaincode/dairy/go/dairy.go:113-126 | After CreateCom, querying `id` returns a commodity with every field as created, one owner and no parents. Every other key queries as before. The owner invariant is kept. |
| `WorldState.Traded` | chaincode/dairy/go/dairy.go:296-308 | Trading fails with the query's "does not exist" error exactly when the key is absent. |
| `WorldState.TradeAppendsOwner` | chaincode/dairy/go/dairy.go:296-308 | A successful trade makes the owner list the old list plus the new owner: one longer, new owner last. Every other field of the commodity is unchanged, and so is every other key. |
| `WorldState.TradeKeepsOwnersNonEmpty` | chaincode/dairy/go/dairy.go:303-307 | Trading preserves "every stored commodity has an owner". |
| `WorldState.TradeHistory` | chaincode/dairy/go/dairy.go:303-307 | The owner list is append-only. After any run of trades of one commodity, it is the original list followed by the new owners in trade order. No other key changes. |
| `WorldState.Parents` | chaincode/dairy/go/dairy.go:316-318 | The first n parent records, each the stored record under the parent's key, read in key order. |
| `WorldState.TrustScores` | chaincode/dairy/go/dairy.go:319 | The parents' trust scores, one per parent, in order. |
| `WorldState.RecordIds` | chaincode/dairy/go/dairy.go:320 | The parents' record IDs, one per parent, in order. |
| `WorldState.ProducePre` | chaincode/dairy/go/dairy.go:316-327 | ProduceCom runs without panicking exactly when there is at least one parent key, the query of every parent key succeeds, and the first parent read as a commodity has an owner. |
| `WorldState.Produced` | chaincode/dairy/go/dairy.go:311-331 | The produced record has the given ID and ideal temperature and zero readings. Its single owner is the last owner of the first parent. Its parent IDs are, one per key and in key order, the IDs of the records those keys hold. Its score is the mean of the parents' scores. |
| `WorldState.ProducedScoreWithinParents` | chaincode/dairy/go/dairy.go:313-322 | If every parent's score lies within [lo, hi], so does the produced score; it always lies between the lowest and highest parent score. |
| `WorldState.ProduceLeavesParents` | chaincode/dairy/go/dairy.go:316-335 | Production writes only key `id`. Every other key, and so every parent stored under another key, reads back as before. The owner invariant is kept. |
| `WorldState.ProducePreUnderInvariant` | chaincode/dairy/go/dairy.go:316-327 | When every stored commodity has an owner, ProduceCom can run exactly when there is a parent, every parent key is present and the first parent is a commodity. |
| `WorldState.ProduceTwoParents` | chaincode/dairy/go/dairy.go:311-331 | Parents scored 0.6 and 0.8 give a produced score of 0.7. The owner is the first parent's last owner, and the parent IDs are both parents' IDs in order. |
| `Seeding.KeyInjective` | chaincode/dairy/go/dairy.go:71 | Two keys with the same prefix are equal only when their numbers are. |
| `Seeding.KeysApart` | chaincode/dairy/go/dairy.go:71-103 | COM, PART and DEV keys never collide with one another. |
| `Seeding.SeedCommodities` | chaincode/dairy/go/dairy.go:62-67 | Four seed commodities; the i-th (from 0) has ID COM(i + 1), an owner and no parents. |
| `Seeding.SeedParticipants` | chaincode/dairy/go/dairy.go:78-83 | Four seed participants; the i-th has ID PART(i + 1) and the single device DEV(i + 1). |
| `Seeding.SeedDevices` | chaincode/dairy/go/dairy.go:94-99 | Four seed devices; the i-th has ID DEV(i + 1) and type Temp. |
| `Seeding.PutIndexed` | chaincode/dairy/go/dairy.go:69-76 | One seed loop: writes the records in turn under prefix + base, prefix + (base + 1), and so on. Where each lands is stated by `PutIndexedAt` and `PutIndexedElsewhere`. |
| `Seeding.PutIndexedAt` | chaincode/dairy/go/dairy.go:69-76 | After the seed loop, key prefix + (base + j) holds the j-th record written. |
| `Seeding.PutIndexedElsewhere` | chaincode/dairy/go/dairy.go:69-76 | A key outside those the seed loop writes keeps its presence and its record. |
| `Seeding.PutIndexedKeepsOwnersNonEmpty` | chaincode/dairy/go/dairy.go:69-76 | Writing records that all have owners preserves the owner invariant. |
| `Seeding.SeededFrom` | chaincode/dairy/go/dairy.go:61-111 | The three seed loops in order, keys numbered from `base`. Where the seeds land is stated by `SeededFromAt` and `SeededFromElsewhere`. |
| `Seeding.Seeded` | chaincode/dairy/go/dairy.go:61-111 | InitLedger as written (keys numbered from 0): the first seed of each kind sits under COM0, PART0 and DEV0, a key that is not its ID (COM1, PART1, DEV1). |
| `Seeding.SeededByIds` | chaincode/dairy/go/dairy.go:61-111 | The corrected seeding (keys numbered from 1): the first seed of each kind sits under its own ID. |
| `Seeding.SeededFromAt` | chaincode/dairy/go/dairy.go:61-111 | After seeding, prefix + (base + i) holds the i-th seed commodity, participant and device. |
| `Seeding.SeededFromElsewhere` | chaincode/dairy/go/dairy.go:61-111 | Seeding leaves every key outside its key scheme as it was. |
| `Seeding.SeededFromKeepsOwnersNonEmpty` | chaincode/dairy/go/dairy.go:61-111 | Seeding preserves "every stored commodity has an owner". |
| `Seeding.SeededQueryAllOffByOne` | chaincode/dairy/go/dairy.go:69-71 | As written, on a ledger with no COM4, PART4 or DEV4 key, QueryAll after InitLedger has a nil fourth entry of each kind. Its entry under prefix + n holds the seed whose ID is prefix + (n + 1); the COM1 entry is the record with ID COM2. |
| `Seeding.SeededFourthAbsent` | chaincode/dairy/go/dairy.go:69-103 | Seeding as written never writes COM4, PART4 or DEV4, so those keys stay absent if they were. |
| `Seeding.SeededShifted` | chaincode/dairy/go/dairy.go:69-103 | Seeding as written puts the seed with ID prefix + (n + 1) under the key prefix + n, so QueryAll's n-th entry holds the next seed. |
| `Seeding.SeededByIdsQueryAll` | chaincode/dairy/go/dairy.go:263-288 | Seeding under the records' own IDs makes QueryAll return exactly the twelve seed records, each under the key equal to its ID. |
| `Contract.Ledger.constructor` | chaincode/dairy/go/dairy.go:15-17 | The contract sees the world state it is given. |
| `Contract.Ledger.InitLedger` | chaincode/dairy/go/dairy.go:61-111 | Three loops write the i-th seed of each kind under prefix + i. The new state is `Seeded` of the old one, and the owner invariant is kept. |
| `Contract.Ledger.CreateCom` | chaincode/dairy/go/dairy.go:113-126 | Writes at `id`, without checking what was there, a commodity with the given fields, owners [owner] and no parents. Querying `id` returns it. Queries of other keys are unchanged. |
| `Contract.Ledger.CreatePart` | chaincode/dairy/go/dairy.go:128-138 | Writes at `id`, overwriting, a participant with the given score and no devices. Querying `id` returns it. Other keys are unchanged. |
| `Contract.Ledger.CreateDev` | chaincode/dairy/go/dairy.go:140-149 | Writes at `id`, overwriting, a device of the given type. Querying `id` returns it. Other keys are unchanged. |
| `Contract.Ledger.DeleteData` | chaincode/dairy/go/dairy.go:151-153 | Removes `id`, present or not, and nothing else. All three queries of `id` then fail. |
| `Contract.Ledger.TradeCom` | chaincode/dairy/go/dairy.go:296-308 | On an absent key, returns the query error and writes nothing. Otherwise succeeds with the state of `Traded`: the owner list gains `newOwner` at its end, and every other key is unchanged. |
| `Contract.Ledger.ProduceCom` | chaincode/dairy/go/dairy.go:311-336 | Reads the parents with `ReadParents`, divides the score sum by their count, and writes the new record. The new state is the old one with `Produced` written at `id` and nothing else changed. The owner invariant is kept. |
| `Contract.ReadParents` | chaincode/dairy/go/dairy.go:316-321 | The loop reads the parents under the keys in order; it returns exactly those records, the sum of their scores and their record IDs. |

## Findings

| source | as written | input that shows it | evidently intended | confidence | as-written member | corrected member |
|---|---|---|---|---|---|---|
| chaincode/dairy/go/dairy.go:69-71 | InitLedger stores the i-th seed under "COM" + i with i counted from 0, while the seeds' IDs are COM1..COM4 and QueryAll reads COM1..COM4 (likewise PART and DEV) | InitLedger then QueryAll on an empty ledger: the COM4, PART4 and DEV4 entries are nil, and the COM1 entry holds the record whose ID is COM2 | each seed stored under its own ID, so that QueryAll returns the seeded records | high; not executed | `Seeding.SeededQueryAllOffByOne` | `Seeding.SeededByIdsQueryAll` |

`Contract.Ledger.InitLedger` keeps the behaviour as written, because it models
the contract. The corrected seeding is `Seeding.SeededByIds`, and
`Seeding.SeededByIdsQueryAll` proves the intended property about it.

## Left out

- The Fabric transaction context, the `contractapi` stub and `main` (chaincode startup). The world state is a map. Transactions, their atomic commit and any concurrency belong to the platform.
- Read failures of the world state (the `GetState` error branch of the three queries). The map is always readable.
- Write failures of `PutState` and `DelState`, including `InitLedger`'s early return after a failed write. Writes to the map always succeed, so no contract method returns a write error.
- JSON marshalling and unmarshalling. Records are stored as typed values. The one visible effect of decoding, that another kind's record reads back with only its ID, is kept. Unmarshal errors are ignored by the code and have no counterpart in the model.
- float32 arithmetic. Scores, readings and temperatures are exact reals, so rounding in the trust-score average is not modelled.
- The commented-out range-scan version of `QueryAll`. It is dead code.
- The trust/reputation engine, participant trust scores and commodity lists, and score updates on trade. They are not in the code.
- Contract.Ledger.ProduceCom: the panics of `ProduceCom` on an empty key list, an absent parent or an ownerless first parent are a precondition (`ProducePre`), not an error result. A panic has no value to model.

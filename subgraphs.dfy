/** The Messari subgraph client: which GraphQL entities and fields each
    schema type is queried through, how fetched pools and daily snapshots are
    collected page by page, and how the snapshots of one pool are laid onto a
    contiguous block range, interpolated, and emitted once per requested
    block. The GraphQL transport is replaced by the sequence of responses it
    would return. */
module Subgraphs {
  import opened Common
  import Interpolation

  datatype Token = Token(id: string, name: string, symbol: string)

  datatype Pool = Pool(id: string, name: string, tokens: seq<Token>)

  datatype PoolSnapshot = PoolSnapshot(
    id: string,
    blockNumber: int,
    timestamp: real,
    totalValueLocked: real,
    cumulativeReward: real)

  datatype Subgraph = Subgraph(protocol: string, schemaType: string, endpoint: string)

  datatype QueryPoolsParams = QueryPoolsParams(pools: string, tokens: string)

  datatype QueryAPYParams = QueryAPYParams(
    snapshots: string,
    pool: string,
    poolId: string,
    fromBlock: int,
    toBlock: int)

  datatype QueryTokenWeightsParams = QueryTokenWeightsParams(
    pool: string,
    poolId: string,
    tokenWeights: string)

  // ---------------------------------------------------------------------------
  // Schema-type dispatch

  /** The three protocol families the client knows how to query. */
  datatype Family = DexAmm | Lending | YieldAggregator

  /** The family of a schema-type string; "CDP" is queried like a lending protocol. */
  function FamilyOf(schemaType: string): (f: Option<Family>)
    ensures f == Some(DexAmm) <==> schemaType == "DEX AMM"
    ensures f == Some(Lending) <==> schemaType == "Lending Protocol" || schemaType == "CDP"
    ensures f == Some(YieldAggregator) <==> schemaType == "Yield Aggregator"
  {
    if schemaType == "DEX AMM" then Some(DexAmm)
    else if schemaType in ["Lending Protocol", "CDP"] then Some(Lending)
    else if schemaType == "Yield Aggregator" then Some(YieldAggregator)
    else None
  }

  /** Entity and token field of the `pools` query. */
  function PoolsParams(schemaType: string): (r: Result<QueryPoolsParams>)
    ensures r.Err? <==> FamilyOf(schemaType).None?
    ensures r.Err? ==> r.error == NotImplemented
    ensures schemaType == "DEX AMM" ==> r == Ok(QueryPoolsParams("liquidityPools", "inputTokens"))
    ensures schemaType in ["Lending Protocol", "CDP"] ==> r == Ok(QueryPoolsParams("markets", "inputToken"))
    ensures schemaType == "Yield Aggregator" ==> r == Ok(QueryPoolsParams("vaults", "inputToken"))
  {
    match FamilyOf(schemaType)
    case Some(DexAmm) => Ok(QueryPoolsParams("liquidityPools", "inputTokens"))
    case Some(Lending) => Ok(QueryPoolsParams("markets", "inputToken"))
    case Some(YieldAggregator) => Ok(QueryPoolsParams("vaults", "inputToken"))
    case None => Err(NotImplemented)
  }

  /** Entity, pool field and block bounds of the `snapshots` query. The schema
      type is examined before `blocks`, so an unknown schema type raises
      NotImplemented even for an empty block list; a known one indexes
      `blocks[0]` and `blocks[-1]`, which fails on an empty list. */
  function SnapshotsParams(schemaType: string, poolId: string, blocks: seq<int>): (r: Result<QueryAPYParams>)
    ensures FamilyOf(schemaType).None? <==> r == Err(NotImplemented)
    ensures FamilyOf(schemaType).Some? && |blocks| == 0 <==> r == Err(IndexError)
    ensures r.Ok? ==> r.value.poolId == poolId && r.value.fromBlock == blocks[0]
                      && r.value.toBlock == blocks[|blocks| - 1]
    ensures r.Ok? && schemaType == "DEX AMM" ==>
              r.value.snapshots == "liquidityPoolDailySnapshots" && r.value.pool == "pool"
    ensures r.Ok? && schemaType in ["Lending Protocol", "CDP"] ==>
              r.value.snapshots == "marketDailySnapshots" && r.value.pool == "market"
    ensures r.Ok? && schemaType == "Yield Aggregator" ==>
              r.value.snapshots == "vaultDailySnapshots" && r.value.pool == "vault"
  {
    match FamilyOf(schemaType)
    case None => Err(NotImplemented)
    case Some(family) =>
      if |blocks| == 0 then Err(IndexError)
      else
        var from, to := blocks[0], blocks[|blocks| - 1];
        match family
        case DexAmm => Ok(QueryAPYParams("liquidityPoolDailySnapshots", "pool", poolId, from, to))
        case Lending => Ok(QueryAPYParams("marketDailySnapshots", "market", poolId, from, to))
        case YieldAggregator => Ok(QueryAPYParams("vaultDailySnapshots", "vault", poolId, from, to))
  }

  /** Token weights exist only on DEX AMM liquidity pools. */
  function TokenWeightsParams(schemaType: string, poolId: string): (r: Result<QueryTokenWeightsParams>)
    ensures r.Ok? <==> schemaType == "DEX AMM"
    ensures r.Err? ==> r.error == NotImplemented
    ensures r.Ok? ==> r.value == QueryTokenWeightsParams("liquidityPool", poolId, "inputTokenWeights")
  {
    if schemaType == "DEX AMM" then Ok(QueryTokenWeightsParams("liquidityPool", poolId, "inputTokenWeights"))
    else Err(NotImplemented)
  }

  /** The three dispatches agree: `pools` and `snapshots` accept the same
      schema types, and a schema type with token weights is one whose pools
      are liquidity pools with a list-valued token field. */
  lemma DispatchConsistent(schemaType: string, poolId: string, blocks: seq<int>)
    requires |blocks| > 0
    ensures PoolsParams(schemaType).Ok? <==> SnapshotsParams(schemaType, poolId, blocks).Ok?
    ensures TokenWeightsParams(schemaType, poolId).Ok? ==>
              PoolsParams(schemaType) == Ok(QueryPoolsParams("liquidityPools", "inputTokens"))
  {
  }

  // ---------------------------------------------------------------------------
  // Token-list normalisation

  /** A pool's token field as fetched: one object, or a list of them. */
  datatype TokenField = One(token: Token) | Many(tokens: seq<Token>)

  datatype RawPool = RawPool(id: string, name: string, tokens: TokenField)

  /** A lone token object becomes a one-element list; a list is kept as is. */
  function NormaliseTokens(f: TokenField): (r: seq<Token>)
    ensures f.One? ==> r == [f.token]
    ensures f.Many? ==> r == f.tokens
    ensures |r| > 0 || f == Many([])
  {
    match f
    case One(t) => [t]
    case Many(ts) => ts
  }

  /** Normalising never loses, invents or reorders a token, and a list that
      is already normalised is left alone. */
  lemma NormaliseTokensKeepsTokens(f: TokenField)
    ensures forall t :: t in NormaliseTokens(f) <==> (f.One? && t == f.token) || (f.Many? && t in f.tokens)
    ensures NormaliseTokens(Many(NormaliseTokens(f))) == NormaliseTokens(f)
  {
  }

  function ToPool(raw: RawPool): (p: Pool)
    ensures p.id == raw.id && p.name == raw.name && p.tokens == NormaliseTokens(raw.tokens)
  {
    Pool(raw.id, raw.name, NormaliseTokens(raw.tokens))
  }

  // ---------------------------------------------------------------------------
  // Paging

  /** One `client.execute` outcome: a transport/query error, or a page of
      records (an empty page ends the paging). */
  datatype Response<T> = QueryFailed | Page(records: seq<T>)

  predicate Stops<T>(r: Response<T>)
  {
    r.QueryFailed? || |r.records| == 0
  }

  /** The number of responses consumed before the loop stops: the position of
      the first error or empty page (the end of the sequence stands for the
      server having nothing more to return). */
  function StopAt<T>(rs: seq<Response<T>>): (k: nat)
    ensures k <= |rs|
    ensures forall i :: 0 <= i < k ==> !Stops(rs[i])
    ensures k < |rs| ==> Stops(rs[k])
  {
    if |rs| == 0 || Stops(rs[0]) then 0 else 1 + StopAt(rs[1..])
  }

  /** The records of the pages, in order. */
  function Flatten<T>(rs: seq<Response<T>>): seq<T>
  {
    if |rs| == 0 then []
    else (if rs[0].Page? then rs[0].records else []) + Flatten(rs[1..])
  }

  lemma {:induction false} FlattenSnoc<T>(rs: seq<Response<T>>, r: Response<T>)
    ensures Flatten(rs + [r]) == Flatten(rs) + (if r.Page? then r.records else [])
  {
    if |rs| == 0 {
      assert rs + [r] == [r];
    } else {
      assert (rs + [r])[1..] == rs[1..] + [r];
      FlattenSnoc(rs[1..], r);
    }
  }

  /** What a fetch loop collects: nothing on an error, otherwise every record
      of the pages before the first empty one. */
  function Fetched<T>(rs: seq<Response<T>>): seq<T>
  {
    var k := StopAt(rs);
    if k < |rs| && rs[k].QueryFailed? then [] else Flatten(rs[..k])
  }

  /** The paging loop of `pools` and `snapshots`: extend `data` with each
      page until an empty page, returning `[]` on the first error. */
  method FetchAll<T>(rs: seq<Response<T>>) returns (data: seq<T>)
    ensures data == Fetched(rs)
    ensures (exists i :: 0 <= i <= StopAt(rs) && i < |rs| && rs[i].QueryFailed?) ==> data == []
  {
    data := [];
    var i := 0;
    while i < |rs|
      invariant 0 <= i <= StopAt(rs)
      invariant data == Flatten(rs[..i])
    {
      match rs[i]
      case QueryFailed =>
        return [];
      case Page(result) =>
        if |result| == 0 {
          break;
        }
        assert rs[..i + 1] == rs[..i] + [rs[i]];
        FlattenSnoc(rs[..i], rs[i]);
        data := data + result;
        i := i + 1;
    }
  }

  /** `Subgraph.pools`: every fetched pool record with its token field
      normalised to a list, in the order fetched. */
  method Pools(schemaType: string, rs: seq<Response<RawPool>>) returns (r: Result<seq<Pool>>)
    ensures r.Err? <==> PoolsParams(schemaType).Err?
    ensures r.Err? ==> r.error == NotImplemented
    ensures r.Ok? ==> |r.value| == |Fetched(rs)|
    ensures r.Ok? ==> forall i :: 0 <= i < |r.value| ==> r.value[i] == ToPool(Fetched(rs)[i])
  {
    var params := PoolsParams(schemaType);
    if params.Err? {
      return Err(NotImplemented);
    }
    var raw := FetchAll(rs);
    var pools := seq(|raw|, i requires 0 <= i < |raw| => ToPool(raw[i]));
    return Ok(pools);
  }

  // ---------------------------------------------------------------------------
  // Snapshot gap-fill

  /** A daily snapshot record as the subgraph returns it. */
  datatype RawSnapshot = RawSnapshot(
    id: string,
    blockNumber: int,
    timestamp: int,
    totalValueLockedUSD: real,
    cumulativeSupplySideRevenueUSD: real)

  /** One row of the `out` frame: timestamp, TVL and cumulative reward. */
  datatype Row = Row(timestamp: real, tvl: real, reward: real)

  function RowOf(s: RawSnapshot): Row
  {
    Row(s.timestamp as real, s.totalValueLockedUSD, s.cumulativeSupplySideRevenueUSD)
  }

  /** Position of the last fetched record for block `b`. */
  function LastIndexAt(data: seq<RawSnapshot>, b: int): (r: Option<nat>)
    ensures r.Some? ==> r.value < |data| && data[r.value].blockNumber == b
    ensures r.Some? ==> forall j :: r.value < j < |data| ==> data[j].blockNumber != b
    ensures r.None? ==> forall i :: 0 <= i < |data| ==> data[i].blockNumber != b
  {
    if |data| == 0 then None
    else if data[|data| - 1].blockNumber == b then Some(|data| - 1)
    else
      var r := LastIndexAt(data[..|data| - 1], b);
      assert forall i :: 0 <= i < |data| - 1 ==> data[..|data| - 1][i] == data[i];
      r
  }

  /** The row the assignment loop leaves at block `b`: that of the last
      fetched record for `b` (later records overwrite earlier ones), or none. */
  function LastRowAt(data: seq<RawSnapshot>, b: int): Option<Row>
  {
    var i := LastIndexAt(data, b);
    if i.Some? then Some(RowOf(data[i.value])) else None
  }

  predicate InRange(data: seq<RawSnapshot>, lo: int, hi: int)
  {
    forall i :: 0 <= i < |data| ==> lo <= data[i].blockNumber <= hi
  }

  /** The frame after the assignment loop: position `p` stands for block `lo + p`. */
  function Placed(lo: int, hi: int, data: seq<RawSnapshot>): (out: seq<Option<Row>>)
    requires lo <= hi
    ensures |out| == hi - lo + 1
  {
    seq(hi - lo + 1, p requires 0 <= p < hi - lo + 1 => LastRowAt(data, lo + p))
  }

  function TimestampColumn(out: seq<Option<Row>>): (c: Interpolation.Column)
    ensures |c| == |out| && forall p :: 0 <= p < |out| ==> c[p].Some? == out[p].Some?
  {
    seq(|out|, p requires 0 <= p < |out| => if out[p].Some? then Some(out[p].value.timestamp) else None)
  }

  function TvlColumn(out: seq<Option<Row>>): (c: Interpolation.Column)
    ensures |c| == |out| && forall p :: 0 <= p < |out| ==> c[p].Some? == out[p].Some?
  {
    seq(|out|, p requires 0 <= p < |out| => if out[p].Some? then Some(out[p].value.tvl) else None)
  }

  function RewardColumn(out: seq<Option<Row>>): (c: Interpolation.Column)
    ensures |c| == |out| && forall p :: 0 <= p < |out| ==> c[p].Some? == out[p].Some?
  {
    seq(|out|, p requires 0 <= p < |out| => if out[p].Some? then Some(out[p].value.reward) else None)
  }

  /** Python's `str` of an integer: an optional minus sign, then the decimal
      digits of the magnitude. */
  function IntToString(n: int): (s: string)
    ensures |s| > 0
    ensures s[0] == '-' <==> n < 0
    ensures n < 0 ==> DigitsValue(s[1..]) == -n
    ensures n >= 0 ==> DigitsValue(s) == n
  {
    if n < 0 then
      var m := NatToString(-n);
      assert ("-" + m)[1..] == m;
      "-" + m
    else NatToString(n)
  }

  /** The number a string of decimal digits denotes, most significant first. */
  function DigitsValue(s: string): nat
  {
    if |s| == 0 then 0
    else 10 * DigitsValue(s[..|s| - 1]) + (if '0' <= s[|s| - 1] <= '9' then (s[|s| - 1] - '0') as nat else 0)
  }

  /** The decimal digits of `n`, without leading zeros. */
  function NatToString(n: nat): (s: string)
    ensures |s| > 0
    ensures forall i :: 0 <= i < |s| ==> '0' <= s[i] <= '9'
    ensures DigitsValue(s) == n
    ensures s[0] == '0' <==> n == 0
    ensures n == 0 ==> s == "0"
  {
    var d := ['0' + (n % 10) as char];
    if n < 10 then d
    else
      var h := NatToString(n / 10);
      assert (h + d)[..|h + d| - 1] == h;
      h + d
  }

  /** Different integers print differently. */
  lemma IntToStringInjective(a: int, b: int)
    requires IntToString(a) == IntToString(b)
    ensures a == b
  {
    var s := IntToString(a);
    if a < 0 {
      assert DigitsValue(s[1..]) == -a == -b;
    }
  }

  /** The id `snapshots` gives the record of a block:
      `pool_id + "_" + str(block)`. */
  function SnapshotId(poolId: string, block: int): string
  {
    poolId + "_" + IntToString(block)
  }

  /** Two blocks of one pool never share a snapshot id. */
  lemma SnapshotIdInjective(poolId: string, a: int, b: int)
    requires SnapshotId(poolId, a) == SnapshotId(poolId, b)
    ensures a == b
  {
    var p := poolId + "_";
    assert (p + IntToString(a))[|p|..] == IntToString(a);
    assert (p + IntToString(b))[|p|..] == IntToString(b);
    IntToStringInjective(a, b);
  }

  /** Every column of the placed frame is filled once some record was placed. */
  lemma PlacedColumnsComplete(lo: int, hi: int, data: seq<RawSnapshot>, p: nat)
    requires lo <= hi && |data| > 0 && InRange(data, lo, hi) && p < hi - lo + 1
    ensures Interpolation.Interpolate(TimestampColumn(Placed(lo, hi, data)))[p].Some?
    ensures Interpolation.Interpolate(TvlColumn(Placed(lo, hi, data)))[p].Some?
    ensures Interpolation.Interpolate(RewardColumn(Placed(lo, hi, data)))[p].Some?
  {
    var out := Placed(lo, hi, data);
    var q := data[0].blockNumber - lo;
    assert out[q] == LastRowAt(data, data[0].blockNumber);
    assert out[q].Some?;
    assert TimestampColumn(out)[q].Some? && TvlColumn(out)[q].Some? && RewardColumn(out)[q].Some?;
    Interpolation.InterpolateComplete(TimestampColumn(out));
    Interpolation.InterpolateComplete(TvlColumn(out));
    Interpolation.InterpolateComplete(RewardColumn(out));
  }

  /** The assignment loop of the gap-fill: a frame of `hi - lo + 1` empty
      rows, block `b` at position `b - lo`, each fetched record written into
      the row of its block. */
  method LayOut(lo: int, hi: int, data: seq<RawSnapshot>) returns (placed: seq<Option<Row>>)
    requires lo <= hi && InRange(data, lo, hi)
    ensures placed == Placed(lo, hi, data)
  {
    var out := new Option<Row>[hi - lo + 1](_ => None);
    var i := 0;
    while i < |data|
      invariant 0 <= i <= |data|
      invariant forall p :: 0 <= p < out.Length ==> out[p] == LastRowAt(data[..i], lo + p)
    {
      var s := data[i];
      assert data[..i + 1][..i] == data[..i];
      out[s.blockNumber - lo] := Some(RowOf(s));
      i := i + 1;
    }
    assert data[..i] == data;
    placed := out[..];
  }

  /** `out.loc[blocks]` on the interpolated columns, one snapshot per
      requested block. */
  function Emit(poolId: string, blocks: seq<int>, lo: int, ts: Interpolation.Column,
                tvl: Interpolation.Column, reward: Interpolation.Column): (r: seq<PoolSnapshot>)
    requires |tvl| == |ts| && |reward| == |ts|
    requires forall k :: 0 <= k < |blocks| ==> 0 <= blocks[k] - lo < |ts|
    requires forall p :: 0 <= p < |ts| ==> ts[p].Some? && tvl[p].Some? && reward[p].Some?
    ensures |r| == |blocks|
    ensures forall k :: 0 <= k < |blocks| ==>
              r[k].blockNumber == blocks[k] && r[k].id == SnapshotId(poolId, blocks[k])
    ensures forall k :: 0 <= k < |blocks| ==>
              var p := blocks[k] - lo;
              Some(r[k].timestamp) == ts[p] && Some(r[k].totalValueLocked) == tvl[p] &&
              Some(r[k].cumulativeReward) == reward[p]
  {
    seq(|blocks|, k requires 0 <= k < |blocks| =>
      var p := blocks[k] - lo;
      PoolSnapshot(SnapshotId(poolId, blocks[k]), blocks[k], ts[p].value, tvl[p].value, reward[p].value))
  }

  /** A block that has a fetched record keeps the values of the last such
      record through interpolation. */
  lemma EmitKeepsFetched(lo: int, hi: int, data: seq<RawSnapshot>, b: int)
    requires lo <= b <= hi
    requires LastRowAt(data, b).Some?
    ensures var placed, p, row := Placed(lo, hi, data), b - lo, LastRowAt(data, b).value;
            Interpolation.Interpolate(TimestampColumn(placed))[p] == Some(row.timestamp) &&
            Interpolation.Interpolate(TvlColumn(placed))[p] == Some(row.tvl) &&
            Interpolation.Interpolate(RewardColumn(placed))[p] == Some(row.reward)
  {
    var placed, p := Placed(lo, hi, data), b - lo;
    assert placed[p] == LastRowAt(data, b);
    Interpolation.InterpolateKeepsKnown(TimestampColumn(placed), p);
    Interpolation.InterpolateKeepsKnown(TvlColumn(placed), p);
    Interpolation.InterpolateKeepsKnown(RewardColumn(placed), p);
  }

  /** The gap-fill at the end of `snapshots`: lay the fetched records onto the
      block range `blocks[0]..blocks[-1]` (a later record for the same block
      overwrites an earlier one), interpolate each column, and emit one
      snapshot per requested block, in the order requested. A requested block
      outside the range is not a row of the frame, and `out.loc[blocks]`
      raises KeyError. */
  method GapFill(poolId: string, blocks: seq<int>, data: seq<RawSnapshot>) returns (r: Result<seq<PoolSnapshot>>)
    requires |blocks| > 0 && |data| > 0
    requires InRange(data, blocks[0], blocks[|blocks| - 1])
    ensures r.Err? <==> exists k :: 0 <= k < |blocks| && !(blocks[0] <= blocks[k] <= blocks[|blocks| - 1])
    ensures r.Err? ==> r.error == KeyError
    ensures r.Ok? ==> |r.value| == |blocks|
    ensures r.Ok? ==> forall k :: 0 <= k < |blocks| ==>
              r.value[k].blockNumber == blocks[k] && r.value[k].id == SnapshotId(poolId, blocks[k])
    ensures r.Ok? ==> forall k :: 0 <= k < |blocks| ==>
              var out, p := Placed(blocks[0], blocks[|blocks| - 1], data), blocks[k] - blocks[0];
              Some(r.value[k].timestamp) == Interpolation.Interpolate(TimestampColumn(out))[p] &&
              Some(r.value[k].totalValueLocked) == Interpolation.Interpolate(TvlColumn(out))[p] &&
              Some(r.value[k].cumulativeReward) == Interpolation.Interpolate(RewardColumn(out))[p]
    ensures r.Ok? ==> forall k :: 0 <= k < |blocks| && LastRowAt(data, blocks[k]).Some? ==>
              var row := LastRowAt(data, blocks[k]).value;
              r.value[k].timestamp == row.timestamp && r.value[k].totalValueLocked == row.tvl
              && r.value[k].cumulativeReward == row.reward
  {
    var lo, hi := blocks[0], blocks[|blocks| - 1];
    assert lo <= data[0].blockNumber <= hi;
    var placed := LayOut(lo, hi, data);
    if exists k :: 0 <= k < |blocks| && !(lo <= blocks[k] <= hi) {
      return Err(KeyError);
    }
    PlacedComplete(lo, hi, data);
    var snaps := Emit(poolId, blocks, lo, Interpolation.Interpolate(TimestampColumn(placed)),
                      Interpolation.Interpolate(TvlColumn(placed)), Interpolation.Interpolate(RewardColumn(placed)));
    EmitKeepsAllFetched(poolId, blocks, lo, hi, data);
    return Ok(snaps);
  }

  /** Every column of the laid-out frame is complete after interpolation. */
  lemma PlacedComplete(lo: int, hi: int, data: seq<RawSnapshot>)
    requires lo <= hi && |data| > 0 && InRange(data, lo, hi)
    ensures forall p :: 0 <= p < hi - lo + 1 ==>
              Interpolation.Interpolate(TimestampColumn(Placed(lo, hi, data)))[p].Some? &&
              Interpolation.Interpolate(TvlColumn(Placed(lo, hi, data)))[p].Some? &&
              Interpolation.Interpolate(RewardColumn(Placed(lo, hi, data)))[p].Some?
  {
    forall p | 0 <= p < hi - lo + 1
      ensures Interpolation.Interpolate(TimestampColumn(Placed(lo, hi, data)))[p].Some?
      ensures Interpolation.Interpolate(TvlColumn(Placed(lo, hi, data)))[p].Some?
      ensures Interpolation.Interpolate(RewardColumn(Placed(lo, hi, data)))[p].Some?
    {
      PlacedColumnsComplete(lo, hi, data, p);
    }
  }

  /** Every requested block that has a fetched record is emitted with the
      values of the last such record. */
  lemma EmitKeepsAllFetched(poolId: string, blocks: seq<int>, lo: int, hi: int, data: seq<RawSnapshot>)
    requires lo <= hi
    requires forall k :: 0 <= k < |blocks| ==> lo <= blocks[k] <= hi
    requires forall p :: 0 <= p < hi - lo + 1 ==>
               Interpolation.Interpolate(TimestampColumn(Placed(lo, hi, data)))[p].Some? &&
               Interpolation.Interpolate(TvlColumn(Placed(lo, hi, data)))[p].Some? &&
               Interpolation.Interpolate(RewardColumn(Placed(lo, hi, data)))[p].Some?
    ensures forall k :: 0 <= k < |blocks| && LastRowAt(data, blocks[k]).Some? ==>
              var out, row := Placed(lo, hi, data), LastRowAt(data, blocks[k]).value;
              var snap := Emit(poolId, blocks, lo, Interpolation.Interpolate(TimestampColumn(out)),
                               Interpolation.Interpolate(TvlColumn(out)), Interpolation.Interpolate(RewardColumn(out)))[k];
              snap.timestamp == row.timestamp && snap.totalValueLocked == row.tvl &&
              snap.cumulativeReward == row.reward
  {
    var out := Placed(lo, hi, data);
    var snaps := Emit(poolId, blocks, lo, Interpolation.Interpolate(TimestampColumn(out)),
                      Interpolation.Interpolate(TvlColumn(out)), Interpolation.Interpolate(RewardColumn(out)));
    forall k | 0 <= k < |blocks| && LastRowAt(data, blocks[k]).Some?
      ensures snaps[k].timestamp == LastRowAt(data, blocks[k]).value.timestamp
      ensures snaps[k].totalValueLocked == LastRowAt(data, blocks[k]).value.tvl
      ensures snaps[k].cumulativeReward == LastRowAt(data, blocks[k]).value.reward
    {
      EmitKeepsFetched(lo, hi, data, blocks[k]);
    }
  }


  /** `Subgraph.snapshots`: dispatch, fetch, and — when anything was
      fetched — gap-fill. An error response or an empty fetch yields `[]`. */
  method Snapshots(schemaType: string, poolId: string, blocks: seq<int>, rs: seq<Response<RawSnapshot>>)
    returns (r: Result<seq<PoolSnapshot>>)
    requires |blocks| > 0 ==> InRange(Fetched(rs), blocks[0], blocks[|blocks| - 1])
    ensures SnapshotsParams(schemaType, poolId, blocks).Err? ==>
              r == Err(SnapshotsParams(schemaType, poolId, blocks).error)
    ensures SnapshotsParams(schemaType, poolId, blocks).Ok? && |Fetched(rs)| == 0 ==> r == Ok([])
    ensures SnapshotsParams(schemaType, poolId, blocks).Ok? && |Fetched(rs)| > 0 ==>
              (r.Err? <==> exists k :: 0 <= k < |blocks| && !(blocks[0] <= blocks[k] <= blocks[|blocks| - 1]))
    ensures SnapshotsParams(schemaType, poolId, blocks).Ok? && |Fetched(rs)| > 0 && r.Err? ==>
              r.error == KeyError
    ensures SnapshotsParams(schemaType, poolId, blocks).Ok? && |Fetched(rs)| > 0 && r.Ok? ==>
              |r.value| == |blocks| &&
              forall k :: 0 <= k < |blocks| ==>
                r.value[k].blockNumber == blocks[k] && r.value[k].id == SnapshotId(poolId, blocks[k])
    ensures SnapshotsParams(schemaType, poolId, blocks).Ok? && |Fetched(rs)| > 0 && r.Ok? ==>
              forall k :: 0 <= k < |blocks| ==>
                var out, p := Placed(blocks[0], blocks[|blocks| - 1], Fetched(rs)), blocks[k] - blocks[0];
                Some(r.value[k].timestamp) == Interpolation.Interpolate(TimestampColumn(out))[p] &&
                Some(r.value[k].totalValueLocked) == Interpolation.Interpolate(TvlColumn(out))[p] &&
                Some(r.value[k].cumulativeReward) == Interpolation.Interpolate(RewardColumn(out))[p]
    ensures SnapshotsParams(schemaType, poolId, blocks).Ok? && |Fetched(rs)| > 0 && r.Ok? ==>
              forall k :: 0 <= k < |blocks| && LastRowAt(Fetched(rs), blocks[k]).Some? ==>
                var row := LastRowAt(Fetched(rs), blocks[k]).value;
                r.value[k].timestamp == row.timestamp && r.value[k].totalValueLocked == row.tvl &&
                r.value[k].cumulativeReward == row.reward
  {
    var params := SnapshotsParams(schemaType, poolId, blocks);
    if params.Err? {
      return Err(params.error);
    }
    var data := FetchAll(rs);
    if |data| == 0 {
      return Ok([]);
    }
    r := GapFill(poolId, blocks, data);
  }

  // ---------------------------------------------------------------------------
  // Registry

  const Registry: seq<Subgraph> := [
    // DEX AMM
    Subgraph("Balancer v2", "DEX AMM", "balancer-v2-ethereum"),
    Subgraph("Bancor v3", "DEX AMM", "bancor-v3-ethereum"),
    Subgraph("Curve", "DEX AMM", "curve-finance-ethereum"),
    Subgraph("Saddle Finance", "DEX AMM", "saddle-finance-ethereum"),
    Subgraph("SushiSwap", "DEX AMM", "sushiswap-ethereum"),
    Subgraph("Uniswap v2", "DEX AMM", "uniswap-v2-ethereum"),
    Subgraph("Uniswap v3", "DEX AMM", "uniswap-v3-ethereum"),
    // Lending protocols
    Subgraph("Aave v2", "Lending Protocol", "aave-v2-ethereum"),
    Subgraph("Aave ARC", "Lending Protocol", "aave-arc-ethereum"),
    Subgraph("Aave RWA", "Lending Protocol", "aave-rwa-ethereum"),
    Subgraph("Aave AMM", "Lending Protocol", "aave-amm-ethereum"),
    Subgraph("Compound", "Lending Protocol", "compound-ethereum"),
    Subgraph("CREAM Finance", "Lending Protocol", "cream-finance-ethereum"),
    Subgraph("Iron Bank", "Lending Protocol", "iron-bank-ethereum"),
    Subgraph("Maple Finance", "Lending Protocol", "maple-finance-ethereum"),
    Subgraph("Rari Fuse", "Lending Protocol", "rari-fuse-ethereum"),
    // CDPs
    Subgraph("Abracadabra", "CDP", "abracadabra-money-ethereum"),
    Subgraph("Inverse Finance", "CDP", "inverse-finance-ethereum"),
    Subgraph("Liquity", "CDP", "liquity-ethereum"),
    Subgraph("MakerDAO", "CDP", "makerdao-ethereum"),
    // Yield aggregators
    Subgraph("Arrakis Finance", "Yield Aggregator", "arrakis-finance-ethereum"),
    Subgraph("BadgerDAO", "Yield Aggregator", "badgerdao-ethereum"),
    Subgraph("Convex Finance", "Yield Aggregator", "convex-finance-ethereum"),
    Subgraph("Gamma Strategy", "Yield Aggregator", "gamma-ethereum"),
    Subgraph("Rari Vaults", "Yield Aggregator", "rari-vaults-ethereum"),
    Subgraph("StakeDAO", "Yield Aggregator", "stake-dao-ethereum"),
    Subgraph("Tokemak", "Yield Aggregator", "tokemak-ethereum"),
    Subgraph("Vesper Finance", "Yield Aggregator", "vesper-ethereum"),
    Subgraph("Yearn v2", "Yield Aggregator", "yearn-v2-ethereum")
  ]

  /** Every registered subgraph has a handled schema type, so neither `pools`
      nor `snapshots` (given a non-empty block list) reaches NotImplemented
      for it; only the DEX AMM ones have token weights. */
  lemma RegistryHandled(i: nat, poolId: string, blocks: seq<int>)
    requires i < |Registry| && |blocks| > 0
    ensures FamilyOf(Registry[i].schemaType).Some?
    ensures PoolsParams(Registry[i].schemaType).Ok?
    ensures SnapshotsParams(Registry[i].schemaType, poolId, blocks).Ok?
    ensures TokenWeightsParams(Registry[i].schemaType, poolId).Ok? <==> i < 7
  {
  }
}

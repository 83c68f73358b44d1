/**
 * The client SDK's local logic in sdk/grpc/ClientProxy.cpp: checking and
 * splitting a connection URI, building the configuration command strings,
 * reshaping a flat top-k search reply into one row per query, the fan-out of
 * Flush and the "params" lookup of GetIndexInfo. The gRPC transport itself is
 * abstract: whatever the server answers is a parameter.
 */
module ClientProxy {
  import opened Wrappers

  datatype StatusCode = Ok | InvalidArgument | NotConnected | UnknownError

  datatype Status = Status(code: StatusCode, message: string)

  const OK: Status := Status(Ok, "")

  // ---------------------------------------------------------------------
  // URI handling
  // ---------------------------------------------------------------------

  /** The position of the first `c` in `s`, as std::string::find_first_of. */
  function FindFirst(s: string, c: char): (r: Option<nat>)
    ensures r.None? <==> c !in s
    ensures r.Some? ==> r.value < |s| && s[r.value] == c && c !in s[..r.value]
  {
    if s == [] then None
    else if s[0] == c then Some(0)
    else
      match FindFirst(s[1..], c)
      case None => None
      case Some(i) =>
        assert s[..i + 1] == [s[0]] + s[1..][..i];
        Some(i + 1)
  }

  /** UriCheck: a URI is acceptable exactly when it contains a ':' somewhere. */
  function UriCheck(uri: string): (ok: bool)
    ensures ok <==> ':' in uri
  {
    FindFirst(uri, ':').Some?
  }

  datatype ConnectParam = ConnectParam(ipAddress: string, port: string)

  /** The URI that Connect(param) dials: address, ':', port. */
  function JoinUri(p: ConnectParam): (uri: string)
    ensures |uri| == |p.ipAddress| + 1 + |p.port|
    ensures uri[..|p.ipAddress|] == p.ipAddress && uri[|p.ipAddress|] == ':'
    ensures uri[|p.ipAddress| + 1..] == p.port
  {
    p.ipAddress + ":" + p.port
  }

  /**
   * Connect(uri) before it dials: a URI without ':' is refused with
   * InvalidAgument "Invalid uri"; otherwise the address is what precedes the
   * first ':' and the port is everything after it (which may hold more ':').
   */
  function SplitUri(uri: string): (r: Result<ConnectParam, Status>)
    ensures r.Failure? <==> ':' !in uri
    ensures r.Failure? ==> r.error == Status(InvalidArgument, "Invalid uri")
    ensures r.Success? ==> ':' !in r.value.ipAddress
  {
    match FindFirst(uri, ':')
    case None => Failure(Status(InvalidArgument, "Invalid uri"))
    case Some(i) => Success(ConnectParam(uri[..i], uri[i + 1..]))
  }

  /** Splitting and joining again gives back the URI. */
  lemma SplitThenJoin(uri: string)
    requires UriCheck(uri)
    ensures SplitUri(uri).Success? && JoinUri(SplitUri(uri).value) == uri
  {
    var i := FindFirst(uri, ':').value;
    assert uri == uri[..i] + ":" + uri[i + 1..];
  }

  /** Joining and splitting gives back the parameters, provided the address has no ':'. */
  lemma JoinThenSplit(p: ConnectParam)
    requires ':' !in p.ipAddress
    ensures SplitUri(JoinUri(p)) == Success(p)
  {
    var uri := JoinUri(p);
    FindFirstAt(uri, ':', |p.ipAddress|);
  }

  /** The first `c` is at `n` when `s[n]` is `c` and nothing before it is. */
  lemma FindFirstAt(s: string, c: char, n: nat)
    requires n < |s| && s[n] == c && c !in s[..n]
    ensures FindFirst(s, c) == Some(n)
  {
  }

  /**
   * The connection state of a ClientProxy. `channel` is the URI of the gRPC
   * channel, or None when none was created; whether the channel could be
   * created is a parameter of Connect.
   */
  class Proxy {
    var connected: bool
    var channel: Option<string>

    constructor ()
      ensures !connected && channel == None
    {
      connected := false;
      channel := None;
    }

    /** Connect(param): dial address ':' port; OK exactly when a channel was made. */
    method ConnectWithParam(p: ConnectParam, channelCreated: bool) returns (s: Status)
      modifies this
      ensures connected == channelCreated
      ensures channel == if channelCreated then Some(JoinUri(p)) else None
      ensures s == if channelCreated then OK else Status(NotConnected, "Connect failed!")
    {
      var uri := p.ipAddress + ":" + p.port;
      if channelCreated {
        channel := Some(uri);
        connected := true;
        return OK;
      }
      channel := None;
      connected := false;
      s := Status(NotConnected, "Connect failed!");
    }

    /**
     * Connect(uri): an invalid URI is refused before anything changes; a
     * valid one is split and dialed again exactly as it was written.
     */
    method ConnectWithUri(uri: string, channelCreated: bool) returns (s: Status)
      modifies this
      ensures !UriCheck(uri) ==> s == Status(InvalidArgument, "Invalid uri")
      ensures !UriCheck(uri) ==> connected == old(connected) && channel == old(channel)
      ensures UriCheck(uri) ==> connected == channelCreated
      ensures UriCheck(uri) ==> channel == if channelCreated then Some(uri) else None
      ensures UriCheck(uri) ==> s == if channelCreated then OK else Status(NotConnected, "Connect failed!")
    {
      var split := SplitUri(uri);
      if split.Failure? {
        return split.error;
      }
      SplitThenJoin(uri);
      s := ConnectWithParam(split.value, channelCreated);
    }
  }

  // ---------------------------------------------------------------------
  // Configuration commands
  // ---------------------------------------------------------------------

  const GET_CONFIG_PREFIX: string := "get_config "
  const SET_CONFIG_PREFIX: string := "set_config "

  /** The command GetConfig sends: "get_config " then the node name. */
  function GetConfigCommand(nodeName: string): (cmd: string)
    ensures |cmd| == |GET_CONFIG_PREFIX| + |nodeName|
    ensures cmd[..|GET_CONFIG_PREFIX|] == GET_CONFIG_PREFIX
    ensures cmd[|GET_CONFIG_PREFIX|..] == nodeName
  {
    GET_CONFIG_PREFIX + nodeName
  }

  /** The command SetConfig sends: "set_config ", the node name, a space, the value. */
  function SetConfigCommand(nodeName: string, value: string): (cmd: string)
  {
    SET_CONFIG_PREFIX + nodeName + " " + value
  }

  /** Reads a set_config command back: the node name ends at the first space after the prefix. */
  function ParseSetConfigCommand(cmd: string): (r: Option<(string, string)>)
  {
    if |cmd| < |SET_CONFIG_PREFIX| || cmd[..|SET_CONFIG_PREFIX|] != SET_CONFIG_PREFIX then None
    else
      var rest := cmd[|SET_CONFIG_PREFIX|..];
      match FindFirst(rest, ' ')
      case None => None
      case Some(i) => Some((rest[..i], rest[i + 1..]))
  }

  /** Different node names give different get_config commands. */
  lemma GetConfigCommandInjective(a: string, b: string)
    requires GetConfigCommand(a) == GetConfigCommand(b)
    ensures a == b
  {
    assert a == GetConfigCommand(a)[|GET_CONFIG_PREFIX|..];
  }

  /** A set_config command carries its node name and value intact when the name has no space. */
  lemma SetConfigCommandRoundTrip(nodeName: string, value: string)
    requires ' ' !in nodeName
    ensures ParseSetConfigCommand(SetConfigCommand(nodeName, value)) == Some((nodeName, value))
  {
    var cmd := SetConfigCommand(nodeName, value);
    var rest := nodeName + " " + value;
    assert cmd == SET_CONFIG_PREFIX + rest;
    assert cmd[..|SET_CONFIG_PREFIX|] == SET_CONFIG_PREFIX;
    assert cmd[|SET_CONFIG_PREFIX|..] == rest;
    var n := |nodeName|;
    assert rest[n] == ' ' && rest[..n] == nodeName && rest[n + 1..] == value;
    FindFirstAt(rest, ' ', n);
  }

  // ---------------------------------------------------------------------
  // Search results
  // ---------------------------------------------------------------------

  /** One query's row: ids and distances (distances are opaque values). */
  datatype QueryResult<D> = QueryResult(ids: seq<int>, distances: seq<D>)

  /** The length left once trailing -1 ids are dropped. */
  function TrimmedLength(ids: seq<int>): (n: nat)
    ensures n <= |ids|
    ensures forall k :: n <= k < |ids| ==> ids[k] == -1
    ensures n == 0 || ids[n - 1] != -1
  {
    if ids == [] then 0
    else if ids[|ids| - 1] == -1 then TrimmedLength(ids[..|ids| - 1])
    else |ids|
  }

  /** Row `i` of a `topk`-wide reply for `nq` queries lies inside the id array. */
  lemma ChunkFits(n: nat, nq: nat, i: nat)
    requires 0 < nq && i < nq
    ensures (n / nq) * i + n / nq <= (n / nq) * nq <= n
  {
    var t := n / nq;
    assert t * i + t == t * (i + 1);
    ScaleMonotone(t, i + 1, nq);
  }

  /** Scaling by a non-negative factor keeps the order of its operands. */
  lemma {:induction false} ScaleMonotone(t: nat, a: nat, b: nat)
    requires a <= b
    ensures t * a <= t * b
    decreases b - a
  {
    if a < b {
      ScaleMonotone(t, a + 1, b);
      assert t * (a + 1) == t * a + t;
    }
  }

  /** The row whose `topk` entries begin at `start`: trailing -1 ids trimmed, the distances cut alike. */
  function Row<D>(ids: seq<int>, distances: seq<D>, start: nat, topk: nat): QueryResult<D>
    requires start + topk <= |ids| <= |distances|
  {
    var chunk := ids[start..start + topk];
    var valid := TrimmedLength(chunk);
    QueryResult(chunk[..valid], distances[start..start + valid])
  }

  /** The rows of a reply for `nq` queries: topk = |ids| / nq entries each, row `i` starting at topk * i. */
  function Rows<D>(ids: seq<int>, distances: seq<D>, nq: nat): (rows: seq<QueryResult<D>>)
    requires 0 < nq && |ids| <= |distances|
    ensures |rows| == nq
  {
    seq(nq, i requires 0 <= i < nq =>
      ChunkFits(|ids|, nq, i);
      Row(ids, distances, (|ids| / nq) * i, |ids| / nq))
  }

  /** What one row keeps: a prefix of its chunk, ids and distances of equal length, only -1 dropped. */
  lemma RowKeeps<D>(ids: seq<int>, distances: seq<D>, start: nat, topk: nat)
    requires start + topk <= |ids| <= |distances|
    ensures var r := Row(ids, distances, start, topk);
      && |r.ids| == |r.distances| <= topk
      && r.ids == ids[start..start + |r.ids|]
      && r.distances == distances[start..start + |r.ids|]
      && (forall k :: start + |r.ids| <= k < start + topk ==> ids[k] == -1)
      && (|r.ids| == 0 || r.ids[|r.ids| - 1] != -1)
      && (topk > 0 && ids[start + topk - 1] != -1 ==> r == QueryResult(ids[start..start + topk], distances[start..start + topk]))
  {
    var chunk := ids[start..start + topk];
    var valid := TrimmedLength(chunk);
    forall k | start + valid <= k < start + topk
      ensures ids[k] == -1
    {
      assert chunk[k - start] == ids[k];
    }
    if topk > 0 && ids[start + topk - 1] != -1 {
      assert chunk[topk - 1] == ids[start + topk - 1];
    }
  }

  /**
   * Row `i` of a reply: the chunk [topk * i, topk * (i + 1)) with trailing
   * -1 ids trimmed from ids and distances alike; interior -1 ids stay, and a
   * chunk whose last id is not -1 is copied whole.
   */
  lemma RowShape<D>(ids: seq<int>, distances: seq<D>, nq: nat, i: nat)
    requires 0 < nq && |ids| <= |distances| && i < nq
    ensures var topk := |ids| / nq;
      var start := topk * i;
      var r := Rows(ids, distances, nq)[i];
      && start + topk <= |ids|
      && |r.ids| == |r.distances| <= topk
      && r.ids == ids[start..start + |r.ids|]
      && r.distances == distances[start..start + |r.ids|]
      && (forall k :: start + |r.ids| <= k < start + topk ==> ids[k] == -1)
      && (|r.ids| == 0 || r.ids[|r.ids| - 1] != -1)
      && (topk > 0 && ids[start + topk - 1] != -1 ==> r == QueryResult(ids[start..start + topk], distances[start..start + topk]))
  {
    var topk := |ids| / nq;
    ChunkFits(|ids|, nq, i);
    var start := topk * i;
    assert Rows(ids, distances, nq)[i] == Row(ids, distances, start, topk);
    RowKeeps(ids, distances, start, topk);
  }

  /** Trimming the copied chunk gives the row. */
  lemma RowOfTrimmedChunk<D>(ids: seq<int>, distances: seq<D>, start: nat, topk: nat)
    requires start + topk <= |ids| <= |distances|
    ensures var chunk := ids[start..start + topk];
      var valid := TrimmedLength(chunk);
      Row(ids, distances, start, topk) == QueryResult(chunk[..valid], distances[start..start + topk][..valid])
  {
    var valid := TrimmedLength(ids[start..start + topk]);
    assert distances[start..start + topk][..valid] == distances[start..start + valid];
  }

  /** The trimming loop of ConstructTopkResult on one row: drop trailing -1 ids, cut distances to match. */
  method TrimRow<D>(rowIds: seq<int>, rowDistances: seq<D>) returns (ids: seq<int>, distances: seq<D>)
    requires |rowIds| == |rowDistances|
    ensures ids == rowIds[..TrimmedLength(rowIds)]
    ensures distances == rowDistances[..TrimmedLength(rowIds)]
  {
    ids, distances := rowIds, rowDistances;
    var validSize := |rowIds|;
    while validSize > 0 && rowIds[validSize - 1] == -1
      invariant 0 <= validSize <= |rowIds|
      invariant TrimmedLength(rowIds[..validSize]) == TrimmedLength(rowIds)
    {
      assert rowIds[..validSize - 1] == rowIds[..validSize][..validSize - 1];
      validSize := validSize - 1;
    }
    assert rowIds[..validSize] == rowIds[..validSize][..validSize];
    if validSize != |rowIds| {
      ids := rowIds[..validSize];
      distances := rowDistances[..validSize];
    }
  }

  /**
   * ConstructTopkResult: appends one row per query to `acc`. The caller
   * (Search) never passes row_num 0, which would divide by zero.
   */
  method ConstructTopkResult<D>(ids: seq<int>, distances: seq<D>, rowNum: nat, acc: seq<QueryResult<D>>)
    returns (result: seq<QueryResult<D>>)
    requires 0 < rowNum && |ids| <= |distances|
    ensures result == acc + Rows(ids, distances, rowNum)
  {
    var nq := rowNum;
    var topk := |ids| / nq;
    ghost var rows := Rows(ids, distances, nq);
    result := acc;
    var i := 0;
    while i < nq
      invariant 0 <= i <= nq
      invariant result == acc + rows[..i]
    {
      ChunkFits(|ids|, nq, i);
      var start := topk * i;
      var rowIds, rowDistances := TrimRow(ids[start..start + topk], distances[start..start + topk]);
      RowOfTrimmedChunk(ids, distances, start, topk);
      assert QueryResult(rowIds, rowDistances) == rows[i];
      assert rows[..i + 1] == rows[..i] + [rows[i]];
      result := result + [QueryResult(rowIds, rowDistances)];
      i := i + 1;
    }
    assert rows[..nq] == rows;
  }

  /**
   * The local part of Search once the server has answered with `status`
   * and a reply of `rowNum` rows: a reply with no rows is returned before
   * any conversion, so no division by zero happens.
   */
  method SearchReply<D>(status: Status, rowNum: nat, ids: seq<int>, distances: seq<D>, acc: seq<QueryResult<D>>)
    returns (s: Status, result: seq<QueryResult<D>>)
    requires |ids| <= |distances|
    ensures s == status
    ensures rowNum == 0 ==> result == acc
    ensures rowNum > 0 ==> result == acc + Rows(ids, distances, rowNum)
  {
    if rowNum == 0 {
      return status, acc;
    }
    result := ConstructTopkResult(ids, distances, rowNum, acc);
    s := status;
  }

  // ---------------------------------------------------------------------
  // Flush and GetIndexInfo
  // ---------------------------------------------------------------------

  /**
   * Flush: with no names, one call with the empty name whose status is
   * returned; otherwise one call per name, in order, and OK whatever they
   * answered. `reply` stands for the server's answer to each call.
   */
  method Flush(names: seq<string>, reply: string -> Status) returns (s: Status, calls: seq<string>)
    ensures names == [] ==> calls == [""] && s == reply("")
    ensures names != [] ==> calls == names && s == OK
  {
    if names == [] {
      calls := [""];
      return reply(""), calls;
    }
    calls := [];
    var i := 0;
    while i < |names|
      invariant 0 <= i <= |names|
      invariant calls == names[..i]
    {
      var ignored := reply(names[i]);
      calls := calls + [names[i]];
      i := i + 1;
    }
    s := OK;
  }

  const EXTRA_PARAM_KEY: string := "params"

  datatype KeyValuePair = KeyValuePair(key: string, value: string)

  /** The index of the last pair whose key is "params", if any. */
  function LastParamsIndex(kvs: seq<KeyValuePair>): (r: Option<nat>)
    ensures r.Some? ==> r.value < |kvs| && kvs[r.value].key == EXTRA_PARAM_KEY
    ensures r.Some? ==> forall k :: r.value < k < |kvs| ==> kvs[k].key != EXTRA_PARAM_KEY
    ensures r.None? ==> forall k :: 0 <= k < |kvs| ==> kvs[k].key != EXTRA_PARAM_KEY
  {
    if kvs == [] then None
    else if kvs[|kvs| - 1].key == EXTRA_PARAM_KEY then Some(|kvs| - 1)
    else LastParamsIndex(kvs[..|kvs| - 1])
  }

  /**
   * GetIndexInfo's scan of the reply's extra parameters: the last "params"
   * value wins, and without one the caller's previous value is kept.
   */
  method ExtraParams(kvs: seq<KeyValuePair>, previous: string) returns (extra: string)
    ensures LastParamsIndex(kvs).None? ==> extra == previous
    ensures LastParamsIndex(kvs).Some? ==> extra == kvs[LastParamsIndex(kvs).value].value
  {
    extra := previous;
    var i := 0;
    while i < |kvs|
      invariant 0 <= i <= |kvs|
      invariant LastParamsIndex(kvs[..i]).None? ==> extra == previous
      invariant LastParamsIndex(kvs[..i]).Some? ==> extra == kvs[LastParamsIndex(kvs[..i]).value].value
    {
      assert kvs[..i + 1][..i] == kvs[..i];
      if kvs[i].key == EXTRA_PARAM_KEY {
        extra := kvs[i].value;
      }
      i := i + 1;
    }
    assert kvs[..i] == kvs;
  }
}

/** Requests and responses that travel between Node A's arbiter and its BLE owner. */
module NodeATypes {
  import opened Prelude
  import opened JkFrame

  datatype Kind = Poll | RawWrite | BalanceWrite | Connect | Disconnect
  datatype Source = App | Mqtt | Internal

  /** `snapEdges` is model bookkeeping: the edge count when the supervisor took `idleEpoch`. */
  datatype Request = Request(
    bank: nat,
    cmdId: nat,
    kind: Kind,
    source: Source,
    opcode: nat,
    idx: nat,
    timeoutMs: nat,
    payload: seq<Byte>,
    idleOnly: bool,
    idleEpoch: nat,
    snapEdges: nat)

  datatype Status = Ok | Timeout | LinkDown | GattError | Rejected | ConnectWait

  datatype Response = Response(bank: nat, cmdId: nat, status: Status, record: Record)

  /** The identity of one outstanding operation. */
  datatype Token = Token(bank: nat, cmdId: nat)

  const CMD_CELL_INFO: nat := 0x96
  const CMD_DEVICE_INFO: nat := 0x97

  /** Depth of both queues between the arbiter and the BLE owner. */
  const QUEUE_DEPTH: nat := 12

  function RequestToken(r: Request): Token { Token(r.bank, r.cmdId) }

  function ResponseToken(r: Response): Token { Token(r.bank, r.cmdId) }

  /** Tokens waiting in the request queue. */
  function RequestTokens(q: seq<Request>): multiset<Token> {
    if q == [] then multiset{} else multiset{RequestToken(q[0])} + RequestTokens(q[1..])
  }

  /** Tokens waiting in the response queue. */
  function ResponseTokens(q: seq<Response>): multiset<Token> {
    if q == [] then multiset{} else multiset{ResponseToken(q[0])} + ResponseTokens(q[1..])
  }

  lemma {:induction false} RequestTokensAppend(q: seq<Request>, r: Request)
    ensures RequestTokens(q + [r]) == RequestTokens(q) + multiset{RequestToken(r)}
  {
    if q == [] {
      assert q + [r] == [r];
    } else {
      RequestTokensAppend(q[1..], r);
      assert (q + [r])[1..] == q[1..] + [r];
    }
  }

  lemma {:induction false} ResponseTokensAppend(q: seq<Response>, r: Response)
    ensures ResponseTokens(q + [r]) == ResponseTokens(q) + multiset{ResponseToken(r)}
  {
    if q == [] {
      assert q + [r] == [r];
    } else {
      ResponseTokensAppend(q[1..], r);
      assert (q + [r])[1..] == q[1..] + [r];
    }
  }

  lemma {:induction false} ResponseTokensConcat(q: seq<Response>, rs: seq<Response>)
    ensures ResponseTokens(q + rs) == ResponseTokens(q) + ResponseTokens(rs)
    decreases |rs|
  {
    if rs == [] {
      assert q + rs == q;
    } else {
      MoveHead(q, rs);
      ResponseTokensAppend(q, rs[0]);
      ResponseTokensConcat(q + [rs[0]], rs[1..]);
    }
  }

  lemma {:induction false} RequestTokensSize(q: seq<Request>)
    ensures |RequestTokens(q)| == |q|
  {
    if q != [] {
      RequestTokensSize(q[1..]);
    }
  }

  lemma {:induction false} ResponseTokensSize(q: seq<Response>)
    ensures |ResponseTokens(q)| == |q|
  {
    if q != [] {
      ResponseTokensSize(q[1..]);
    }
  }
}

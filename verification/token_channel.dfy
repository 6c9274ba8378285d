/** The Windows synchronous token channel of the child broker, reduced to
    what can be stated without the platform: the 32-bit size arithmetic of
    each request and the discipline of the lock that serialises requests.
    Whether the blocking write and reads to the parent succeed is a
    parameter of every call. */
module TokenChannel {
  import opened Types

  const TwoTo32: nat := 0x1_0000_0000

  /** The unsigned 32-bit value a wider non-negative value is stored as. */
  function U32(x: nat): (r: nat)
    ensures r < TwoTo32
    ensures x < TwoTo32 ==> r == x
  {
    x % TwoTo32
  }

  /** Platform constants: the broker message header size and the size of a
      HANDLE. */
  datatype Layout = Layout(header: nat, handleSize: nat)

  const TokenSize: nat := 8

  datatype RequestKind = HandleToTokenKind | TokenToHandleKind | CreateChannelPairKind

  /** A request as sent: its kind, the value of its 32-bit size field, the
      number of entries it carries and the number of response bytes the
      caller waits for. */
  datatype Request = Request(kind: RequestKind, size: nat, entries: nat, responseSize: nat)

  /** Bytes of payload that fit behind the header in a buffer of `size`. */
  function Payload(layout: Layout, size: nat): nat {
    if size <= layout.header then 0 else size - layout.header
  }

  /** HandleToToken: one HANDLE per entry out, one 64-bit token per entry back. */
  function HandleToTokenRequest(layout: Layout, count: nat): (r: Request)
    ensures r.kind == HandleToTokenKind && r.entries == count
    ensures r.size < TwoTo32 && r.responseSize < TwoTo32
    ensures layout.header + count * layout.handleSize < TwoTo32 ==>
      r.size == layout.header + count * layout.handleSize
    ensures count * TokenSize < TwoTo32 ==> r.responseSize == count * TokenSize
  {
    Request(HandleToTokenKind, U32(layout.header + count * layout.handleSize), count, U32(count * TokenSize))
  }

  /** TokenToHandle: one 64-bit token per entry out, one HANDLE per entry back. */
  function TokenToHandleRequest(layout: Layout, count: nat): (r: Request)
    ensures r.kind == TokenToHandleKind && r.entries == count
    ensures r.size < TwoTo32 && r.responseSize < TwoTo32
    ensures layout.header + count * TokenSize < TwoTo32 ==>
      r.size == layout.header + count * TokenSize
    ensures count * layout.handleSize < TwoTo32 ==> r.responseSize == count * layout.handleSize
  {
    FactorFits(count, layout.handleSize);
    Request(TokenToHandleKind, U32(layout.header + count * TokenSize), count, U32(U32(count) * layout.handleSize))
  }

  /** A product that fits in 32 bits has a factor that does too, unless the
      other factor is zero. */
  lemma FactorFits(a: nat, b: nat)
    ensures a * b < TwoTo32 ==> U32(a) * b == a * b
  {
    if a * b < TwoTo32 && b > 0 {
      assert a <= a * b;
    }
  }

  /** CreatePlatformChannelPair: a bare header out, two HANDLEs back. */
  function ChannelPairRequest(layout: Layout): (r: Request)
    ensures r.kind == CreateChannelPairKind && r.entries == 0
    ensures layout.header < TwoTo32 ==> r.size == layout.header
    ensures 2 * layout.handleSize < TwoTo32 ==> r.responseSize == 2 * layout.handleSize
  {
    Request(CreateChannelPairKind, U32(layout.header), 0, U32(2 * layout.handleSize))
  }

  /** The HandleToToken size field is the true message size exactly when
      that size fits in 32 bits. */
  lemma SizeExactIffFits(layout: Layout, count: nat)
    ensures var full := layout.header + count * layout.handleSize;
      HandleToTokenRequest(layout, count).size == full <==> full < TwoTo32
  {
  }

  /** The same for the TokenToHandle size field. */
  lemma TokenSizeExactIffFits(layout: Layout, count: nat)
    ensures var full := layout.header + count * TokenSize;
      TokenToHandleRequest(layout, count).size == full <==> full < TwoTo32
  {
  }

  /** The buffer of a HandleToToken request, sized by its size field, holds
      every handle the request carries. */
  predicate HoldsEntries(layout: Layout, r: Request) {
    r.entries * layout.handleSize <= Payload(layout, r.size)
  }

  /** As written, a large enough count wraps the size field: the buffer
      allocated from it is too small for the handles copied into it. With
      8-byte handles, 2^29 handles need 2^32 payload bytes and the size
      field wraps to the header size. */
  lemma HandleToTokenOverflows(header: nat)
    requires header < TwoTo32
    ensures var layout := Layout(header, 8);
      var r := HandleToTokenRequest(layout, 0x2000_0000);
      r.size == header && !HoldsEntries(layout, r)
  {
    var layout := Layout(header, 8);
    assert 0x2000_0000 * 8 == TwoTo32;
    assert (header + TwoTo32) % TwoTo32 == header;
  }

  /** The request HandleToToken evidently means to send: refused when its
      size does not fit the 32-bit size field. */
  function CheckedHandleToTokenRequest(layout: Layout, count: nat): (r: Option<Request>)
  {
    if layout.header + count * layout.handleSize < TwoTo32
    then Some(HandleToTokenRequest(layout, count))
    else None
  }

  /** The checked request exists exactly when it fits, and then its buffer
      holds every handle and its size field is the true size. */
  lemma CheckedRequestHoldsEntries(layout: Layout, count: nat)
    ensures var full := layout.header + count * layout.handleSize;
      && (CheckedHandleToTokenRequest(layout, count).Some? <==> full < TwoTo32)
      && (CheckedHandleToTokenRequest(layout, count).Some? ==>
            && CheckedHandleToTokenRequest(layout, count).value.size == full
            && CheckedHandleToTokenRequest(layout, count).value.entries == count
            && HoldsEntries(layout, CheckedHandleToTokenRequest(layout, count).value))
  {
  }

  /** The buffer of a TokenToHandle request, sized by its size field, holds
      every token the request carries. */
  predicate HoldsTokens(layout: Layout, r: Request) {
    r.entries * TokenSize <= Payload(layout, r.size)
  }

  /** As written, TokenToHandle wraps the same way: 2^29 tokens need 2^32
      payload bytes and the size field wraps to the header size. */
  lemma TokenToHandleOverflows(layout: Layout)
    requires layout.header < TwoTo32
    ensures var r := TokenToHandleRequest(layout, 0x2000_0000);
      r.size == layout.header && !HoldsTokens(layout, r)
  {
    assert 0x2000_0000 * TokenSize == TwoTo32;
    assert (layout.header + TwoTo32) % TwoTo32 == layout.header;
  }

  /** The TokenToHandle request evidently meant: refused when its size does
      not fit the 32-bit size field. */
  function CheckedTokenToHandleRequest(layout: Layout, count: nat): Option<Request>
  {
    if layout.header + count * TokenSize < TwoTo32
    then Some(TokenToHandleRequest(layout, count))
    else None
  }

  /** The checked request exists exactly when it fits, and then its buffer
      holds every token and its size field is the true size. */
  lemma CheckedRequestHoldsTokens(layout: Layout, count: nat)
    ensures var full := layout.header + count * TokenSize;
      && (CheckedTokenToHandleRequest(layout, count).Some? <==> full < TwoTo32)
      && (CheckedTokenToHandleRequest(layout, count).Some? ==>
            && CheckedTokenToHandleRequest(layout, count).value.size == full
            && CheckedTokenToHandleRequest(layout, count).value.entries == count
            && HoldsTokens(layout, CheckedTokenToHandleRequest(layout, count).value))
  {
  }

  /** The lock that serialises requests on the synchronous channel. */
  datatype Lock = Free | Held

  /** One call on the channel; `ok` is whether the blocking write and reads
      to the parent succeeded. */
  datatype Call =
    | HandleToToken(count: nat, ok: bool)
    | TokenToHandle(count: nat, ok: bool)
    | CreateChannelPair(ok: bool)

  /** A call either blocks forever on a lock that is held, or finishes,
      leaving the lock in some state and delivering a result or not. */
  datatype Attempt = Blocked | Finished(lock: Lock, delivered: bool)

  /** A call as the source performs it: take the lock, do the exchange,
      release the lock, except that TokenToHandle releases it only when the
      exchange succeeded. */
  function PerformAsWritten(l: Lock, c: Call): (a: Attempt)
    ensures a.Blocked? <==> l == Held
    ensures a.Finished? ==> a.delivered == c.ok
  {
    if l == Held then Blocked
    else match c
      case HandleToToken(_, ok) => Finished(Free, ok)
      case TokenToHandle(_, ok) => if ok then Finished(Free, true) else Finished(Held, false)
      case CreateChannelPair(ok) => Finished(Free, ok)
  }

  /** As written, a failed TokenToHandle leaves the lock held and the next
      call on the channel blocks for ever. */
  lemma FailedTokenToHandleBlocksNext(count: nat, next: Call)
    ensures PerformAsWritten(Free, TokenToHandle(count, false)) == Finished(Held, false)
    ensures PerformAsWritten(PerformAsWritten(Free, TokenToHandle(count, false)).lock, next) == Blocked
  {
  }

  /** Every call releases the lock, whatever the exchange did. */
  function Perform(l: Lock, c: Call): (a: Attempt)
    ensures a.Blocked? <==> l == Held
    ensures a.Finished? ==> a.delivered == c.ok && a.lock == Free
  {
    if l == Held then Blocked
    else match c
      case HandleToToken(_, ok) => Finished(Free, ok)
      case TokenToHandle(_, ok) => Finished(Free, ok)
      case CreateChannelPair(ok) => Finished(Free, ok)
  }

  /** A sequence of calls made one after another; the first call that
      blocks ends the sequence. Returns the results delivered so far. */
  function Serve(l: Lock, calls: seq<Call>, perform: (Lock, Call) -> Attempt): (r: (Lock, seq<bool>, bool))
    decreases |calls|
  {
    if calls == [] then (l, [], false)
    else
      match perform(l, calls[0])
      case Blocked => (l, [], true)
      case Finished(next, delivered) =>
        var rest := Serve(next, calls[1..], perform);
        (rest.0, [delivered] + rest.1, rest.2)
  }

  /** The broker takes the lock when it is constructed and releases it only
      once the host handle arrives: every call made before then blocks. */
  lemma CallsWaitForHostHandle(calls: seq<Call>)
    requires calls != []
    ensures Serve(Held, calls, Perform) == (Held, [], true)
    ensures Serve(Held, calls, PerformAsWritten) == (Held, [], true)
  {
  }

  /** With every call releasing the lock, a channel whose lock starts free
      never blocks, answers every call, and ends with the lock free. */
  lemma {:induction false} ServeNeverBlocks(calls: seq<Call>)
    ensures var r := Serve(Free, calls, Perform);
      && !r.2 && r.0 == Free
      && |r.1| == |calls|
      && forall i :: 0 <= i < |calls| ==> r.1[i] == calls[i].ok
    decreases |calls|
  {
    if calls != [] {
      ServeNeverBlocks(calls[1..]);
    }
  }

  /** As written, one failed TokenToHandle stops the channel for good:
      whatever follows it, nothing more is answered. */
  lemma {:induction false} AsWrittenStallsAfterFailure(count: nat, later: seq<Call>)
    requires later != []
    ensures var r := Serve(Free, [TokenToHandle(count, false)] + later, PerformAsWritten);
      r.2 && r.1 == [false] && r.0 == Held
  {
    var calls := [TokenToHandle(count, false)] + later;
    assert calls[0] == TokenToHandle(count, false);
    assert calls[1..] == later;
  }
}

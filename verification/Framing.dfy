/**
 Length-prefixed packets and the router that cuts a byte stream into messages, connection by connection.
 */
module Framing {
  import opened Basics

  /** One message handed to the handlers of its type. */
  datatype Message = Message(kind: int, payload: seq<Byte>)

  datatype Extraction =
    | NeedMore
    | Invalid
    | Ok(step: nat, message: Message)

  type Extractor = seq<Byte> -> Extraction

  /** An extractor consumes only bytes it was given. */
  ghost predicate Fits(ext: Extractor) {
    forall d :: ext(d).Ok? ==> ext(d).step <= |d|
  }

  /** A verdict is never revised when more bytes arrive. */
  ghost predicate Stable(ext: Extractor) {
    forall d, more: seq<Byte> :: !ext(d).NeedMore? ==> ext(d + more) == ext(d)
  }

  // ---- the router ----

  /**
   Cutting the pending bytes: the messages found, and the bytes to keep.  A message that claims more bytes
   than there are is still dispatched; nothing is kept then.
   */
  function Consume(ext: Extractor, pending: seq<Byte>): (r: (seq<Message>, seq<Byte>))
    decreases |pending|
  {
    if pending == [] then ([], [])
    else
      match ext(pending)
      case NeedMore => ([], pending)
      case Invalid => ([], [])
      case Ok(step, message) =>
        if step == 0 then ([], [])
        else if step > |pending| then ([message], [])
        else
          var (ms, rest) := Consume(ext, pending[step..]);
          ([message] + ms, rest)
  }

  /** The cut ends with a message that claims more bytes than there are: taking the rest then throws. */
  predicate Overruns(ext: Extractor, pending: seq<Byte>)
    decreases |pending|
  {
    && pending != [] && ext(pending).Ok? && ext(pending).step > 0
    && (ext(pending).step > |pending| || Overruns(ext, pending[ext(pending).step..]))
  }

  datatype Dispatched = Dispatched(conn: nat, message: Message)

  function Tagged(conn: nat, ms: seq<Message>): (r: seq<Dispatched>)
    ensures |r| == |ms|
  {
    seq(|ms|, k requires 0 <= k < |ms| => Dispatched(conn, ms[k]))
  }

  class CMessageRouter {
    var extractor: Option<Extractor>
    var buffers: map<nat, seq<Byte>>
    ghost var dispatched: seq<Dispatched>

    constructor ()
      ensures extractor == None && buffers == map[] && dispatched == []
    {
      extractor, buffers, dispatched := None, map[], [];
    }

    method SetExtractor(ext: Extractor)
      modifies this
      ensures extractor == Some(ext) && buffers == old(buffers) && dispatched == old(dispatched)
    {
      extractor := Some(ext);
    }

    /**
     New bytes of one connection; the empty call does nothing, not even with bytes pending.  `thrown` means
     that an extractor claimed more bytes than it was given.
     */
    method OnData(conn: nat, data: seq<Byte>) returns (thrown: bool)
      modifies this
      ensures extractor == old(extractor)
      ensures data == [] ==> dispatched == old(dispatched) && buffers == old(buffers) && !thrown
      ensures data != [] && extractor.None? ==>
                dispatched == old(dispatched) && buffers == old(buffers)[conn := Buffered(old(buffers), conn) + data]
      ensures data != [] ==>
        var pending := Buffered(old(buffers), conn) + data;
        && thrown == (extractor.Some? && Overruns(extractor.value, pending))
        && dispatched == old(dispatched) + Tagged(conn, Cut(extractor, pending).0)
        && buffers == Stored(old(buffers), conn, Cut(extractor, pending).1)
    {
      if data == [] {
        return false;
      }
      var pending := [];
      if conn in buffers {
        pending := buffers[conn];
        buffers := buffers - {conn};
      }
      pending := pending + data;
      var remain;
      thrown, remain := DispatchAll(conn, pending);
      if thrown {
        return;
      }
      if remain == [] {
        buffers := buffers - {conn};
      } else {
        buffers := buffers[conn := remain];
      }
    }

    /** The loop outside the lock: extract and dispatch while there are complete messages. */
    method DispatchAll(conn: nat, pending: seq<Byte>) returns (thrown: bool, remain: seq<Byte>)
      requires pending != []
      modifies this`dispatched
      ensures remain == Cut(extractor, pending).1
      ensures thrown == (extractor.Some? && Overruns(extractor.value, pending))
      ensures thrown ==> remain == []
      ensures dispatched == old(dispatched) + Tagged(conn, Cut(extractor, pending).0)
    {
      var consumed := 0;
      ghost var found: seq<Message> := [];
      assert pending[consumed..] == pending;
      if extractor.Some? {
        ContinuesStart(extractor.value, pending);
      }
      while consumed < |pending|
        invariant 0 <= consumed <= |pending|
        invariant dispatched == old(dispatched) + Tagged(conn, found)
        invariant extractor.None? ==> consumed == 0 && found == []
        invariant extractor.Some? ==> Continues(extractor.value, pending, found, pending[consumed..])
        decreases |pending| - consumed
      {
        if extractor.None? {
          break;
        }
        var left := pending[consumed..];
        var extracted := extractor.value(left);
        if extracted.NeedMore? {
          break;
        }
        if extracted.Invalid? || extracted.step == 0 {
          consumed := |pending|;
          break;
        }
        TaggedAppend(conn, found, extracted.message);
        dispatched := dispatched + [Dispatched(conn, extracted.message)];
        if extracted.step > |left| {
          return true, [];
        }
        ContinuesStep(extractor.value, pending, found, left);
        assert left[extracted.step..] == pending[consumed + extracted.step..];
        consumed := consumed + extracted.step;
        found := found + [extracted.message];
      }
      thrown, remain := false, pending[consumed..];
    }

    method OnClose(conn: nat)
      modifies this
      ensures buffers == old(buffers) - {conn} && extractor == old(extractor) && dispatched == old(dispatched)
    {
      buffers := buffers - {conn};
    }
  }

  /** Without an extractor everything stays pending. */
  function Cut(extractor: Option<Extractor>, pending: seq<Byte>): (seq<Message>, seq<Byte>) {
    if extractor.Some? then Consume(extractor.value, pending) else ([], pending)
  }

  function Buffered(buffers: map<nat, seq<Byte>>, conn: nat): seq<Byte> {
    if conn in buffers then buffers[conn] else []
  }

  function Stored(buffers: map<nat, seq<Byte>>, conn: nat, rest: seq<Byte>): map<nat, seq<Byte>> {
    if rest == [] then buffers - {conn} else buffers[conn := rest]
  }

  /** Cutting all of `pending` means: the messages found so far, then cutting what is left. */
  ghost predicate Continues(ext: Extractor, pending: seq<Byte>, found: seq<Message>, left: seq<Byte>) {
    && Consume(ext, pending) == (found + Consume(ext, left).0, Consume(ext, left).1)
    && (Overruns(ext, pending) <==> Overruns(ext, left))
  }

  lemma ContinuesStart(ext: Extractor, pending: seq<Byte>)
    ensures Continues(ext, pending, [], pending)
  {
    assert [] + Consume(ext, pending).0 == Consume(ext, pending).0;
  }

  lemma ContinuesStep(ext: Extractor, pending: seq<Byte>, found: seq<Message>, left: seq<Byte>)
    requires Continues(ext, pending, found, left) && left != [] && ext(left).Ok? && 0 < ext(left).step <= |left|
    ensures Continues(ext, pending, found + [ext(left).message], left[ext(left).step..])
  {
    var m := ext(left).message;
    var ms := Consume(ext, left[ext(left).step..]).0;
    assert found + ([m] + ms) == found + [m] + ms;
  }

  lemma TaggedAppend(conn: nat, ms: seq<Message>, m: Message)
    ensures Tagged(conn, ms + [m]) == Tagged(conn, ms) + [Dispatched(conn, m)]
  {}

  // ---- what cutting means ----

  /**
   The messages `ms` stand one behind the other from the front of `pending` on, at the offsets `cuts`, and
   there are no more: behind the last one `rest` is kept if it waits for more bytes, and nothing is kept
   behind a bad header, a message of no bytes, or one that claims more bytes than there are.
   */
  ghost predicate CutAt(ext: Extractor, pending: seq<Byte>, cuts: seq<nat>, ms: seq<Message>, rest: seq<Byte>) {
    && |cuts| == |ms| + 1 && cuts[0] == 0
    && (forall i | 0 <= i < |ms| :: StandsAt(ext, pending, cuts[i], cuts[i + 1], ms[i]))
    && EndsAt(ext, pending, cuts[|ms|], rest)
  }

  /** From `lo` up to `hi` there is this message, and at least its first byte has arrived. */
  ghost predicate StandsAt(ext: Extractor, pending: seq<Byte>, lo: nat, hi: nat, m: Message) {
    lo < |pending| && lo < hi && ext(pending[lo..]) == Ok(hi - lo, m)
  }

  ghost predicate EndsAt(ext: Extractor, pending: seq<Byte>, last: nat, rest: seq<Byte>) {
    if last >= |pending| then rest == []
    else
      match ext(pending[last..])
      case NeedMore => rest == pending[last..]
      case Invalid => rest == []
      case Ok(step, _) => step == 0 && rest == []
  }

  function Shifted(cuts: seq<nat>, step: nat): (r: seq<nat>)
    ensures |r| == |cuts| + 1 && r[0] == 0 && forall i | 0 <= i < |cuts| :: r[i + 1] == cuts[i] + step
  {
    [0] + seq(|cuts|, i requires 0 <= i < |cuts| => cuts[i] + step)
  }

  lemma {:induction false} ConsumeCuts(ext: Extractor, pending: seq<Byte>) returns (cuts: seq<nat>)
    ensures CutAt(ext, pending, cuts, Consume(ext, pending).0, Consume(ext, pending).1)
    decreases |pending|
  {
    assert pending[0..] == pending;
    if pending == [] || !ext(pending).Ok? || ext(pending).step == 0 {
      cuts := [0];
    } else {
      var (step, m) := (ext(pending).step, ext(pending).message);
      if step > |pending| {
        cuts := [0, step];
      } else {
        var (ms, rest) := Consume(ext, pending[step..]);
        var later := ConsumeCuts(ext, pending[step..]);
        cuts := Shifted(later, step);
        ShiftedCuts(ext, pending, step, m, later, cuts, ms, rest);
      }
    }
  }

  lemma ShiftedCuts(ext: Extractor, pending: seq<Byte>, step: nat, m: Message, later: seq<nat>, cuts: seq<nat>,
      ms: seq<Message>, rest: seq<Byte>)
    requires step <= |pending| && StandsAt(ext, pending, 0, step, m)
    requires CutAt(ext, pending[step..], later, ms, rest) && cuts == Shifted(later, step)
    ensures CutAt(ext, pending, cuts, [m] + ms, rest)
  {
    forall i | 0 <= i < |ms| + 1
      ensures StandsAt(ext, pending, cuts[i], cuts[i + 1], ([m] + ms)[i])
    {
      if i > 0 {
        LaterStands(ext, pending, step, later[i - 1], later[i], ms[i - 1]);
      }
    }
    LaterEnds(ext, pending, step, later[|ms|], rest);
  }

  lemma LaterStands(ext: Extractor, pending: seq<Byte>, step: nat, lo: nat, hi: nat, m: Message)
    requires step <= |pending| && StandsAt(ext, pending[step..], lo, hi, m)
    ensures StandsAt(ext, pending, lo + step, hi + step, m)
  {
    FurtherBack(pending, step, lo);
  }

  lemma LaterEnds(ext: Extractor, pending: seq<Byte>, step: nat, last: nat, rest: seq<Byte>)
    requires step <= |pending| && EndsAt(ext, pending[step..], last, rest)
    ensures EndsAt(ext, pending, last + step, rest)
  {
    if last < |pending| - step {
      FurtherBack(pending, step, last);
    }
  }

  lemma FurtherBack(pending: seq<Byte>, step: nat, c: nat)
    requires step + c <= |pending|
    ensures pending[step..][c..] == pending[c + step..]
  {}

  lemma {:induction false} CutOnce(ext: Extractor, pending: seq<Byte>, cuts: seq<nat>, ms: seq<Message>,
      rest: seq<Byte>, cuts': seq<nat>, ms': seq<Message>, rest': seq<Byte>, k: nat)
    requires CutAt(ext, pending, cuts, ms, rest) && CutAt(ext, pending, cuts', ms', rest') && k <= |ms|
    ensures k <= |ms'| && cuts[..k + 1] == cuts'[..k + 1] && ms[..k] == ms'[..k]
    decreases k
  {
    if k > 0 {
      CutOnce(ext, pending, cuts, ms, rest, cuts', ms', rest', k - 1);
      assert cuts[..k][k - 1] == cuts'[..k][k - 1];
      assert cuts[k - 1] == cuts'[k - 1];
      assert StandsAt(ext, pending, cuts[k - 1], cuts[k], ms[k - 1]);
      assert cuts[..k + 1] == cuts[..k] + [cuts[k]] && cuts'[..k + 1] == cuts'[..k] + [cuts'[k]];
      assert ms[..k] == ms[..k - 1] + [ms[k - 1]] && ms'[..k] == ms'[..k - 1] + [ms'[k - 1]];
    }
  }

  /** Cutting gives exactly the messages and the rest of that description. */
  lemma ConsumeIff(ext: Extractor, pending: seq<Byte>, ms: seq<Message>, rest: seq<Byte>)
    ensures Consume(ext, pending) == (ms, rest) <==> exists cuts :: CutAt(ext, pending, cuts, ms, rest)
  {
    var cuts := ConsumeCuts(ext, pending);
    if cuts' :| CutAt(ext, pending, cuts', ms, rest) {
      var (found, left) := Consume(ext, pending);
      CutOnce(ext, pending, cuts, found, left, cuts', ms, rest, |found|);
      CutOnce(ext, pending, cuts', ms, rest, cuts, found, left, |ms|);
      assert cuts[..|found| + 1] == cuts && cuts'[..|ms| + 1] == cuts' && found[..|found|] == found && ms[..|ms|] == ms;
    }
  }

  // ---- how a stream is split does not matter ----

  /** Cutting never meets a bad header. */
  predicate Clean(ext: Extractor, pending: seq<Byte>)
    requires Fits(ext)
    decreases |pending|
  {
    pending == [] || ext(pending).NeedMore? ||
    (ext(pending).Ok? && ext(pending).step > 0 && Clean(ext, pending[ext(pending).step..]))
  }

  lemma Regrouped(m: Message, ms: seq<Message>, more: seq<Message>)
    ensures [m] + (ms + more) == [m] + ms + more
  {}

  /** Cutting two pieces joined, against cutting the first, then its rest with the second. */
  lemma {:induction false} ConsumeSplit(ext: Extractor, a: seq<Byte>, b: seq<Byte>)
    requires Fits(ext) && Stable(ext)
    ensures Clean(ext, a) ==>
              var (ms, rest) := Consume(ext, a);
              Consume(ext, a + b) == (ms + Consume(ext, rest + b).0, Consume(ext, rest + b).1)
    ensures !Clean(ext, a) ==> Consume(ext, a + b) == Consume(ext, a) && Consume(ext, a).1 == []
    decreases |a|
  {
    if a == [] || ext(a).NeedMore? {
      assert [] + b == b;
      assert [] + Consume(ext, a + b).0 == Consume(ext, a + b).0;
    } else {
      assert ext(a + b) == ext(a);
      if ext(a).Ok? && ext(a).step > 0 {
        var step := ext(a).step;
        assert (a + b)[step..] == a[step..] + b;
        ConsumeSplit(ext, a[step..], b);
        var (ms, rest) := Consume(ext, a[step..]);
        Regrouped(ext(a).message, ms, Consume(ext, rest + b).0);
      }
    }
  }

  function Concat(chunks: seq<seq<Byte>>): seq<Byte> {
    if chunks == [] then [] else chunks[0] + Concat(chunks[1..])
  }

  /** One connection fed chunk by chunk, from the bytes already buffered. */
  function Feed(ext: Extractor, buffered: seq<Byte>, chunks: seq<seq<Byte>>): (r: (seq<Message>, seq<Byte>))
    requires Fits(ext)
    decreases |chunks|
  {
    if chunks == [] then ([], buffered)
    else
      var (ms, rest) := FeedOne(ext, buffered, chunks[0]);
      var (more, last) := Feed(ext, rest, chunks[1..]);
      (ms + more, last)
  }

  /** Bytes that are kept wait for more: they do not start with a complete message or a bad header. */
  predicate Tail(ext: Extractor, d: seq<Byte>) {
    d == [] || ext(d).NeedMore?
  }

  lemma {:induction false} RestIsTail(ext: Extractor, d: seq<Byte>)
    requires Fits(ext)
    ensures Tail(ext, Consume(ext, d).1)
    decreases |d|
  {
    if d != [] && ext(d).Ok? && ext(d).step > 0 {
      RestIsTail(ext, d[ext(d).step..]);
    }
  }

  /** What one chunk gives: an empty one is no call at all, another one is cut with what is buffered. */
  function FeedOne(ext: Extractor, buffered: seq<Byte>, chunk: seq<Byte>): (seq<Message>, seq<Byte>)
    requires Fits(ext)
  {
    if chunk == [] then ([], buffered) else Consume(ext, buffered + chunk)
  }

  /** The empty chunk needs no exception, because what is buffered waits for more bytes. */
  lemma FeedOneCuts(ext: Extractor, buffered: seq<Byte>, chunk: seq<Byte>)
    requires Fits(ext) && Tail(ext, buffered)
    ensures FeedOne(ext, buffered, chunk) == Consume(ext, buffered + chunk)
    ensures Tail(ext, Consume(ext, buffered + chunk).1)
  {
    RestIsTail(ext, buffered + chunk);
    if chunk == [] {
      assert buffered + chunk == buffered;
    }
  }

  lemma FeedFirst(ext: Extractor, buffered: seq<Byte>, chunks: seq<seq<Byte>>)
    requires Fits(ext) && chunks != [] && Tail(ext, buffered)
    ensures var d := buffered + chunks[0];
            var (ms, rest) := Consume(ext, d);
            && Tail(ext, rest)
            && Feed(ext, buffered, chunks) == (ms + Feed(ext, rest, chunks[1..]).0, Feed(ext, rest, chunks[1..]).1)
  {
    FeedOneCuts(ext, buffered, chunks[0]);
  }

  lemma ConcatFirst(buffered: seq<Byte>, chunks: seq<seq<Byte>>)
    requires chunks != []
    ensures buffered + Concat(chunks) == buffered + chunks[0] + Concat(chunks[1..])
  {}

  /** Any split of a clean stream gives exactly what the stream as a whole gives. */
  lemma {:induction false} ChunksDoNotMatter(ext: Extractor, buffered: seq<Byte>, chunks: seq<seq<Byte>>)
    requires Fits(ext) && Stable(ext) && Tail(ext, buffered) && Clean(ext, buffered + Concat(chunks))
    ensures Feed(ext, buffered, chunks) == Consume(ext, buffered + Concat(chunks))
    decreases |chunks|
  {
    if chunks == [] {
      assert buffered + [] == buffered;
    } else {
      var d := buffered + chunks[0];
      var rest := Consume(ext, d).1;
      var later := Concat(chunks[1..]);
      FeedFirst(ext, buffered, chunks);
      ConcatFirst(buffered, chunks);
      ConsumeSplit(ext, d, later);
      CleanSplit(ext, d, later);
      ChunksDoNotMatter(ext, rest, chunks[1..]);
    }
  }

  /** A bad header never takes back or changes anything that was dispatched before it, whatever the split. */
  lemma {:induction false} DispatchedStays(ext: Extractor, buffered: seq<Byte>, chunks: seq<seq<Byte>>)
    requires Fits(ext) && Stable(ext) && Tail(ext, buffered)
    ensures Consume(ext, buffered + Concat(chunks)).0 <= Feed(ext, buffered, chunks).0
    decreases |chunks|
  {
    if chunks == [] {
      assert buffered + [] == buffered;
    } else {
      var d := buffered + chunks[0];
      var rest := Consume(ext, d).1;
      var later := Concat(chunks[1..]);
      FeedFirst(ext, buffered, chunks);
      ConcatFirst(buffered, chunks);
      ConsumeSplit(ext, d, later);
      DispatchedStays(ext, rest, chunks[1..]);
    }
  }

  /** A clean stream has clean beginnings, and the rest joined with what follows is clean as well. */
  lemma {:induction false} CleanSplit(ext: Extractor, a: seq<Byte>, b: seq<Byte>)
    requires Fits(ext) && Stable(ext)
    ensures Clean(ext, a + b) <==> Clean(ext, a) && Clean(ext, Consume(ext, a).1 + b)
    decreases |a|
  {
    if a == [] || ext(a).NeedMore? {
      assert [] + b == b;
    } else {
      assert ext(a + b) == ext(a);
      if ext(a).Ok? && ext(a).step > 0 {
        assert (a + b)[ext(a).step..] == a[ext(a).step..] + b;
        CleanSplit(ext, a[ext(a).step..], b);
      }
    }
  }

  /** Cutting off one message at the front. */
  lemma ConsumeOne(ext: Extractor, d: seq<Byte>, m: Message, rest: seq<Byte>, ms: seq<Message>, tail: seq<Byte>)
    requires Fits(ext) && d != [] && ext(d).Ok? && ext(d).step > 0 && ext(d).message == m && d[ext(d).step..] == rest
    requires Consume(ext, rest) == (ms, tail) && Clean(ext, rest)
    ensures Consume(ext, d) == ([m] + ms, tail) && Clean(ext, d)
  {}

  // ---- many connections ----

  datatype Event = Data(conn: nat, bytes: seq<Byte>) | Close(conn: nat)

  datatype Router = Router(buffers: map<nat, seq<Byte>>, log: seq<Dispatched>)

  /** The router's state after a sequence of calls. */
  function Run(ext: Extractor, events: seq<Event>): Router
  {
    if events == [] then Router(map[], [])
    else
      var s := Run(ext, events[..|events| - 1]);
      match events[|events| - 1]
      case Close(conn) => s.(buffers := s.buffers - {conn})
      case Data(conn, bytes) =>
        if bytes == [] then s
        else
          var (ms, rest) := Consume(ext, Buffered(s.buffers, conn) + bytes);
          Router(Stored(s.buffers, conn, rest), s.log + Tagged(conn, ms))
  }

  /** What one connection alone would see of the same calls. */
  function Alone(ext: Extractor, events: seq<Event>, conn: nat): (seq<Message>, seq<Byte>)
  {
    if events == [] then ([], [])
    else
      var (ms, buffered) := Alone(ext, events[..|events| - 1], conn);
      var e := events[|events| - 1];
      if e.conn != conn then (ms, buffered)
      else if e.Close? then (ms, [])
      else if e.bytes == [] then (ms, buffered)
      else (ms + Consume(ext, buffered + e.bytes).0, Consume(ext, buffered + e.bytes).1)
  }

  /** The messages dispatched for one connection. */
  function MessagesOf(log: seq<Dispatched>, conn: nat): seq<Message> {
    if log == [] then []
    else MessagesOf(log[..|log| - 1], conn) + if log[|log| - 1].conn == conn then [log[|log| - 1].message] else []
  }

  lemma {:induction false} MessagesAppend(log: seq<Dispatched>, other: nat, ms: seq<Message>, conn: nat)
    ensures MessagesOf(log + Tagged(other, ms), conn) == MessagesOf(log, conn) + if other == conn then ms else []
    decreases |ms|
  {
    if ms == [] {
      assert log + Tagged(other, ms) == log;
    } else {
      var n := |ms| - 1;
      MessagesAppend(log, other, ms[..n], conn);
      assert ms == ms[..n] + [ms[n]];
      TaggedAppend(other, ms[..n], ms[n]);
      assert (log + Tagged(other, ms))[..|log| + n] == log + Tagged(other, ms[..n]);
    }
  }

  /** Connections do not influence each other: each sees what it would see alone. */
  lemma {:induction false} ConnectionsAreIsolated(ext: Extractor, events: seq<Event>, conn: nat)
    ensures Buffered(Run(ext, events).buffers, conn) == Alone(ext, events, conn).1
    ensures MessagesOf(Run(ext, events).log, conn) == Alone(ext, events, conn).0
    decreases |events|
  {
    if events != [] {
      var before := events[..|events| - 1];
      ConnectionsAreIsolated(ext, before, conn);
      var s := Run(ext, before);
      var e := events[|events| - 1];
      if e.Data? && e.bytes != [] {
        MessagesAppend(s.log, e.conn, Consume(ext, Buffered(s.buffers, e.conn) + e.bytes).0, conn);
      }
    }
  }

  /** Closing a connection starts it over: what comes later is cut as if nothing had been received before. */
  lemma {:induction false} CloseStartsOver(ext: Extractor, before: seq<Event>, conn: nat, later: seq<Event>)
    ensures var all := Alone(ext, before + [Close(conn)] + later, conn);
            all == (Alone(ext, before, conn).0 + Alone(ext, later, conn).0, Alone(ext, later, conn).1)
    decreases |later|
  {
    var events := before + [Close(conn)] + later;
    if later == [] {
      assert events == before + [Close(conn)] && events[..|events| - 1] == before;
      var ms := Alone(ext, before, conn).0;
      assert ms + [] == ms && Alone(ext, later, conn) == ([], []);
      assert Alone(ext, events, conn) == (ms, []);
    } else {
      assert events[..|events| - 1] == before + [Close(conn)] + later[..|later| - 1];
      assert events[|events| - 1] == later[|later| - 1];
      CloseStartsOver(ext, before, conn, later[..|later| - 1]);
      var a, l := Alone(ext, before, conn).0, Alone(ext, later[..|later| - 1], conn).0;
      assert forall m: seq<Message> :: a + l + m == a + (l + m);
    }
  }
}

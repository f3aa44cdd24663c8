/**
 * Who each message of the child's stdout goes to: a response, a server request or a notification by its shape
 * (sections 4, 4.1, 5 and 6 of the JSON-RPC 2.0 Specification).
 */
module Routing {
  import opened Options
  import Text
  import opened Framing
  import opened Sequences

  const REPORTED_PREFIX := 200

  /** The keys of a message the router looks at. */
  datatype Message = Message(id: Option<int>, method_: Option<string>, hasResult: bool, hasError: bool, body: string)

  /** What a line parses to. */
  datatype Json = Object(msg: Message) | Array(items: seq<Json>) | Scalar

  /** How a call came back. */
  datatype Completion = Done | Threw

  datatype Handlers = Handlers(notification: bool, serverRequest: bool)

  datatype Effect =
    | Response(msg: Message)
    | ServerRequest(msg: Message)
    | RefusedRequest(msg: Message)
    | Notification(msg: Message)
    | ParseFailure(head: string)

  function RouteMessage(h: Handlers, msg: Message): seq<Effect> {
    if msg.id.Some? && (msg.hasResult || msg.hasError) then [Response(msg)]
    else if msg.id.Some? && msg.method_.Some? then
      [if h.serverRequest then ServerRequest(msg) else RefusedRequest(msg)]
    else if msg.method_.Some? && msg.id.None? then
      if h.notification then [Notification(msg)] else []
    else []
  }

  /** An item of a batch: an array inside one carries none of the keys, so it is passed over. */
  function RouteItem(h: Handlers, item: Json): seq<Effect> {
    if item.Object? then RouteMessage(h, item.msg) else []
  }

  function RouteItems(h: Handlers, items: seq<Json>): seq<Effect> {
    if items == [] then [] else RouteItems(h, items[..|items| - 1]) + RouteItem(h, items[|items| - 1])
  }

  function RouteParsed(h: Handlers, parsed: Json): seq<Effect> {
    if parsed.Array? then RouteItems(h, parsed.items) else RouteItem(h, parsed)
  }

  predicate LooksLikeJson(line: string) { line != "" && (line[0] == '{' || line[0] == '[') }

  function Head(line: string): string { if |line| <= REPORTED_PREFIX then line else line[..REPORTED_PREFIX] }

  function RouteLine(parse: string -> Option<Json>, h: Handlers, line: string): seq<Effect> {
    if !LooksLikeJson(line) then []
    else if parse(line).None? then [ParseFailure(Head(line))]
    else RouteParsed(h, parse(line).value)
  }

  function Routed(parse: string -> Option<Json>, h: Handlers, lines: seq<string>): seq<Effect> {
    if lines == [] then []
    else Routed(parse, h, lines[..|lines| - 1]) + RouteLine(parse, h, lines[|lines| - 1])
  }

  /** Lines route as they would alone. */
  lemma {:induction false} RoutesEachLineAlone(parse: string -> Option<Json>, h: Handlers, lines: seq<string>,
                                               more: seq<string>)
    ensures Routed(parse, h, lines + more) == Routed(parse, h, lines) + Routed(parse, h, more)
    decreases |more|
  {
    if more == [] {
      assert lines + more == lines;
    } else {
      hide RouteLine;
      var rest, last := more[..|more| - 1], more[|more| - 1];
      RoutesEachLineAlone(parse, h, lines, rest);
      LastOfJoin(lines, more);
      Associates(Routed(parse, h, lines), Routed(parse, h, rest), RouteLine(parse, h, last));
    }
  }

  lemma {:induction false} ItemsRouteAlone(h: Handlers, items: seq<Json>, more: seq<Json>)
    ensures RouteItems(h, items + more) == RouteItems(h, items) + RouteItems(h, more)
    decreases |more|
  {
    if more == [] {
      assert items + more == items;
    } else {
      hide RouteItem;
      var rest, last := more[..|more| - 1], more[|more| - 1];
      ItemsRouteAlone(h, items, rest);
      LastOfJoin(items, more);
      Associates(RouteItems(h, items), RouteItems(h, rest), RouteItem(h, last));
    }
  }

  lemma NextLine(parse: string -> Option<Json>, h: Handlers, lines: seq<string>, i: nat)
    requires i < |lines|
    ensures Routed(parse, h, lines[..i + 1]) == Routed(parse, h, lines[..i]) + RouteLine(parse, h, lines[i])
    ensures Routed(parse, h, lines) == Routed(parse, h, lines[..i + 1]) + Routed(parse, h, lines[i + 1..])
  {
    hide RouteLine;
    var upTo := lines[..i + 1];
    assert upTo[..i] == lines[..i] && upTo[i] == lines[i] && upTo + lines[i + 1..] == lines;
    RoutesEachLineAlone(parse, h, upTo, lines[i + 1..]);
  }

  lemma NextItem(h: Handlers, items: seq<Json>, i: nat)
    requires i < |items|
    ensures RouteItems(h, items[..i + 1]) == RouteItems(h, items[..i]) + RouteItem(h, items[i])
    ensures RouteItems(h, items) == RouteItems(h, items[..i + 1]) + RouteItems(h, items[i + 1..])
  {
    hide RouteItem;
    var upTo := items[..i + 1];
    assert upTo[..i] == items[..i] && upTo[i] == items[i] && upTo + items[i + 1..] == items;
    ItemsRouteAlone(h, upTo, items[i + 1..]);
  }

  // What of it runs when hooks and handlers throw. `throws` says of a history of calls whether its last one throws.

  /** Behind no `catch`: what settles a response and what reports an unreadable line. */
  predicate Unguarded(e: Effect) { e.Response? || e.ParseFailure? }

  /** After these calls, the call of `e` throws out of the loop over the chunk's lines. */
  predicate Escapes(throws: seq<Effect> -> bool, before: seq<Effect>, e: Effect) {
    Unguarded(e) && throws(before + [e])
  }

  /** The calls made of a list of those due: all up to the first that escapes, that one included. */
  function Ran(throws: seq<Effect> -> bool, before: seq<Effect>, due: seq<Effect>): seq<Effect>
    decreases |due|
  {
    if due == [] then []
    else if Escapes(throws, before, due[0]) then [due[0]]
    else [due[0]] + Ran(throws, before + [due[0]], due[1..])
  }

  predicate RunsThrough(throws: seq<Effect> -> bool, before: seq<Effect>, due: seq<Effect>)
    decreases |due|
  {
    due == [] || (!Escapes(throws, before, due[0]) && RunsThrough(throws, before + [due[0]], due[1..]))
  }

  predicate EscapesAt(throws: seq<Effect> -> bool, before: seq<Effect>, due: seq<Effect>, k: nat)
    requires k < |due|
  {
    Escapes(throws, before + due[..k], due[k])
  }

  lemma EscapesBehindFirst(throws: seq<Effect> -> bool, before: seq<Effect>, due: seq<Effect>, k: nat)
    requires k + 1 < |due|
    ensures EscapesAt(throws, before + [due[0]], due[1..], k) == EscapesAt(throws, before, due, k + 1)
  {
    Associates(before, [due[0]], due[1..][..k]);
    assert [due[0]] + due[1..][..k] == due[..k + 1];
  }

  /** Every call due is made exactly if no unguarded one throws at its turn, whatever the handlers do. */
  lemma {:induction false} RunsThroughExactly(throws: seq<Effect> -> bool, before: seq<Effect>, due: seq<Effect>)
    ensures RunsThrough(throws, before, due) <==> forall k :: 0 <= k < |due| ==> !EscapesAt(throws, before, due, k)
    decreases |due|
  {
    hide Escapes;
    if due != [] {
      FirstEscape(throws, before, due);
      var rest := due[1..];
      RunsThroughExactly(throws, before + [due[0]], rest);
      forall k | 0 <= k < |rest|
        ensures EscapesAt(throws, before + [due[0]], rest, k) == EscapesAt(throws, before, due, k + 1)
      {
        EscapesBehindFirst(throws, before, due, k);
      }
      forall k | 0 < k < |due|
        ensures EscapesAt(throws, before, due, k) == EscapesAt(throws, before + [due[0]], rest, k - 1)
      {
        EscapesBehindFirst(throws, before, due, k - 1);
      }
    }
  }

  lemma FirstEscape(throws: seq<Effect> -> bool, before: seq<Effect>, due: seq<Effect>)
    requires due != []
    ensures EscapesAt(throws, before, due, 0) == Escapes(throws, before, due[0])
  {
    assert before + due[..0] == before;
  }

  /** Otherwise the calls stop with the first that escapes. */
  lemma {:induction false} StopsAtFirstEscape(throws: seq<Effect> -> bool, before: seq<Effect>, due: seq<Effect>)
    ensures RunsThrough(throws, before, due) ==> Ran(throws, before, due) == due
    ensures !RunsThrough(throws, before, due) ==>
              var n := |Ran(throws, before, due)|;
              && 0 < n <= |due| && Ran(throws, before, due) == due[..n]
              && EscapesAt(throws, before, due, n - 1)
              && forall k :: 0 <= k < n - 1 ==> !EscapesAt(throws, before, due, k)
    decreases |due|
  {
    hide Escapes;
    if due != [] {
      FirstEscape(throws, before, due);
      if !Escapes(throws, before, due[0]) {
        var rest := due[1..];
        StopsAtFirstEscape(throws, before + [due[0]], rest);
        if !RunsThrough(throws, before, due) {
          var n := |Ran(throws, before + [due[0]], rest)|;
          assert [due[0]] + rest[..n] == due[..n + 1];
          EscapesBehindFirst(throws, before, due, n - 1);
          forall k | 0 < k < n ensures !EscapesAt(throws, before, due, k) {
            EscapesBehindFirst(throws, before, due, k - 1);
            assert !EscapesAt(throws, before + [due[0]], rest, k - 1);
          }
        }
      }
    }
  }

  /** What runs of two lists due one after the other. */
  lemma {:induction false} RanSplits(throws: seq<Effect> -> bool, before: seq<Effect>, a: seq<Effect>, b: seq<Effect>)
    ensures RunsThrough(throws, before, a + b) <==> RunsThrough(throws, before, a) && RunsThrough(throws, before + a, b)
    ensures Ran(throws, before, a + b) == if RunsThrough(throws, before, a) then a + Ran(throws, before + a, b)
                                         else Ran(throws, before, a)
    decreases |a|
  {
    if a == [] {
      assert a + b == b && before + a == before;
    } else {
      hide Escapes;
      var first, rest := [a[0]], a[1..];
      DropInFront(a, b, 1);
      RanSplits(throws, before + first, rest, b);
      Associates(before, first, rest);
      assert first + rest == a;
      Associates(first, rest, Ran(throws, before + a, b));
    }
  }

  lemma NoCall(throws: seq<Effect> -> bool, before: seq<Effect>)
    ensures before + Ran(throws, before, []) == before && RunsThrough(throws, before, [])
  {}

  lemma OneCall(throws: seq<Effect> -> bool, before: seq<Effect>, e: Effect)
    ensures Ran(throws, before, [e]) == [e]
    ensures RunsThrough(throws, before, [e]) <==> !Escapes(throws, before, e)
  {
    assert [e][1..] == [];
  }

  /** A loop over parts due one after the other: `a` is behind it, `b` is what this pass does, `c` is to come. */
  lemma LoopGoesOn(throws: seq<Effect> -> bool, before: seq<Effect>, a: seq<Effect>, b: seq<Effect>, c: seq<Effect>)
    requires RunsThrough(throws, before, a)
    ensures RunsThrough(throws, before + a, b) ==>
              RunsThrough(throws, before, a + b) && before + a + Ran(throws, before + a, b) == before + (a + b)
    ensures !RunsThrough(throws, before + a, b) ==>
              && !RunsThrough(throws, before, a + b + c)
              && before + a + Ran(throws, before + a, b) == before + Ran(throws, before, a + b + c)
  {
    hide Escapes;
    RanSplits(throws, before, a, b);
    RanSplits(throws, before, a + b, c);
    StopsAtFirstEscape(throws, before + a, b);
    Associates(before, a, b);
    Associates(before, a, Ran(throws, before + a, b));
  }

  /** A router between chunks: the lines taken, the text held and the calls made. */
  datatype Stream = Stream(raw: seq<string>, held: string, log: seq<Effect>)

  function TakeChunk(parse: string -> Option<Json>, h: Handlers, throws: seq<Effect> -> bool, s: Stream,
                     chunk: string): Stream {
    var split := SplitLines(s.held + chunk);
    Stream(s.raw + split.lines, split.held, s.log + Ran(throws, s.log, Routed(parse, h, Kept(split.lines))))
  }

  class MessageRouter {
    const reader: LineReader
    /** `JSON.parse`. */
    const parse: string -> Option<Json>
    var notificationHandler: bool
    var serverRequestHandler: bool
    /** Every hook and handler called, in order. */
    var log: seq<Effect>
    /** A hook threw out of a chunk; a handler was registered behind a line already taken. */
    ghost var escaped: bool
    ghost var late: bool

    /** Until then the calls are those of the lines of the stream taken, however it came in chunks. */
    ghost predicate Valid() reads this, reader {
      && reader.Valid()
      && (!escaped && !late ==> log == Routed(parse, Registered(), Kept(SplitLines(reader.taken).lines)))
    }

    ghost function Taken(): Stream reads this, reader { Stream(reader.raw, reader.buffer, log) }

    function Registered(): Handlers reads this { Handlers(notificationHandler, serverRequestHandler) }

    constructor (parse: string -> Option<Json>)
      ensures Valid() && fresh(reader) && log == [] && reader.taken == "" && reader.raw == []
      ensures Registered() == Handlers(false, false) && !escaped && !late && this.parse == parse
    {
      reader := new LineReader();
      this.parse := parse;
      notificationHandler, serverRequestHandler := false, false;
      log, escaped, late := [], false, false;
    }

    method OnNotification()
      requires Valid()
      modifies this`notificationHandler, this`late
      ensures Valid() && Registered() == Handlers(true, old(serverRequestHandler))
      ensures late == (old(late) || (reader.raw != [] && !old(notificationHandler)))
    {
      late := late || (reader.raw != [] && !notificationHandler);
      notificationHandler := true;
    }

    method OnServerRequest()
      requires Valid()
      modifies this`serverRequestHandler, this`late
      ensures Valid() && Registered() == Handlers(old(notificationHandler), true)
      ensures late == (old(late) || (reader.raw != [] && !old(serverRequestHandler)))
    {
      late := late || (reader.raw != [] && !serverRequestHandler);
      serverRequestHandler := true;
    }

    /** Route every message of the lines a chunk completed. A handler that throws stops none of them; a hook
        behind no `catch` that throws is the last call of its chunk, whose lines are taken all the same. */
    method Take(chunk: string, throws: seq<Effect> -> bool) returns (done: Completion)
      requires Valid()
      modifies this`log, this`escaped, reader
      ensures Valid() && reader.taken == old(reader.taken) + chunk
      ensures Taken() == TakeChunk(parse, Registered(), throws, old(Taken()), chunk)
      ensures var due := Routed(parse, Registered(), Kept(SplitLines(old(reader.buffer) + chunk).lines));
              && (done.Done? <==> forall k :: 0 <= k < |due| ==> !EscapesAt(throws, old(log), due, k))
              && (done.Done? ==> log == old(log) + due)
              && (done.Threw? ==>
                    exists n :: (
                      && 0 <= n < |due| && EscapesAt(throws, old(log), due, n)
                      && log == old(log) + due[..n + 1]
                      && forall k :: 0 <= k < n ==> !EscapesAt(throws, old(log), due, k)))
      ensures escaped == (old(escaped) || done.Threw?)
    {
      hide Kept, Routed, Ran, RunsThrough, EscapesAt, Splitting;
      var lines := reader.Take(chunk);
      ghost var due := Routed(parse, Registered(), lines);
      RunsThroughExactly(throws, log, due);
      StopsAtFirstEscape(throws, log, due);
      RoutesEachLineAlone(parse, Registered(), Kept(old(reader.raw)), lines);
      SplittingAfter(old(reader.raw), [], old(reader.buffer) + chunk);
      assert old(reader.raw) + [] == old(reader.raw);
      done := RouteLines(lines, throws);
      escaped := escaped || done.Threw?;
    }

    method RouteLines(lines: seq<string>, throws: seq<Effect> -> bool) returns (done: Completion)
      modifies this`log
      ensures var due := Routed(parse, Registered(), lines);
              && log == old(log) + Ran(throws, old(log), due)
              && (done.Done? <==> RunsThrough(throws, old(log), due))
    {
      hide RouteLine, Ran, RunsThrough, Escapes;
      ghost var h := Registered();
      NoCall(throws, log);
      for i := 0 to |lines|
        invariant log == old(log) + Routed(parse, h, lines[..i])
        invariant RunsThrough(throws, old(log), Routed(parse, h, lines[..i]))
      {
        done := TakeLine(lines[i], throws);
        NextLine(parse, h, lines, i);
        LoopGoesOn(throws, old(log), Routed(parse, h, lines[..i]), RouteLine(parse, h, lines[i]),
                   Routed(parse, h, lines[i + 1..]));
        if done.Threw? { return; }
      }
      assert lines[..|lines|] == lines;
      StopsAtFirstEscape(throws, old(log), Routed(parse, h, lines));
      done := Done;
    }

    method TakeLine(trimmed: string, throws: seq<Effect> -> bool) returns (done: Completion)
      modifies this`log
      ensures var due := RouteLine(parse, Registered(), trimmed);
              && log == old(log) + Ran(throws, old(log), due)
              && (done.Done? <==> RunsThrough(throws, old(log), due))
    {
      hide RouteParsed;
      if !LooksLikeJson(trimmed) { return Done; }
      if parse(trimmed).None? {
        ghost var failure := ParseFailure(Head(trimmed));
        OneCall(throws, log, failure);
        done := Call(ParseFailure(Head(trimmed)), throws);
        return;
      }
      done := DispatchParsed(parse(trimmed).value, throws);
    }

    method DispatchParsed(parsed: Json, throws: seq<Effect> -> bool) returns (done: Completion)
      modifies this`log
      ensures var due := RouteParsed(Registered(), parsed);
              && log == old(log) + Ran(throws, old(log), due)
              && (done.Done? <==> RunsThrough(throws, old(log), due))
    {
      hide RouteMessage;
      match parsed
      case Array(items) => done := DispatchItems(items, throws);
      case Object(msg) => done := HandleMessage(msg, throws);
      case Scalar => done := Done;
    }

    method DispatchItems(items: seq<Json>, throws: seq<Effect> -> bool) returns (done: Completion)
      modifies this`log
      ensures var due := RouteItems(Registered(), items);
              && log == old(log) + Ran(throws, old(log), due)
              && (done.Done? <==> RunsThrough(throws, old(log), due))
    {
      hide RouteItem, Ran, RunsThrough, Escapes;
      ghost var h := Registered();
      NoCall(throws, log);
      for i := 0 to |items|
        invariant log == old(log) + RouteItems(h, items[..i])
        invariant RunsThrough(throws, old(log), RouteItems(h, items[..i]))
      {
        done := DispatchItem(items[i], throws);
        NextItem(h, items, i);
        LoopGoesOn(throws, old(log), RouteItems(h, items[..i]), RouteItem(h, items[i]),
                   RouteItems(h, items[i + 1..]));
        if done.Threw? { return; }
      }
      assert items[..|items|] == items;
      StopsAtFirstEscape(throws, old(log), RouteItems(h, items));
      done := Done;
    }

    method DispatchItem(item: Json, throws: seq<Effect> -> bool) returns (done: Completion)
      modifies this`log
      ensures var due := RouteItem(Registered(), item);
              && log == old(log) + Ran(throws, old(log), due)
              && (done.Done? <==> RunsThrough(throws, old(log), due))
    {
      hide RouteMessage;
      done := Done;
      if item.Object? { done := HandleMessage(item.msg, throws); }
    }

    method HandleMessage(msg: Message, throws: seq<Effect> -> bool) returns (done: Completion)
      modifies this`log
      ensures var due := RouteMessage(Registered(), msg);
              && log == old(log) + Ran(throws, old(log), due)
              && (done.Done? <==> RunsThrough(throws, old(log), due))
    {
      hide Ran, RunsThrough;
      NoCall(throws, log);
      done := Done;
      if msg.id.Some? && (msg.hasResult || msg.hasError) {
        OneCall(throws, log, Response(msg));
        done := Call(Response(msg), throws);
        return;
      }
      if msg.id.Some? && msg.method_.Some? {
        var effect := if serverRequestHandler then ServerRequest(msg) else RefusedRequest(msg);
        OneCall(throws, log, effect);
        RunHandler(effect, throws);
        return;
      }
      if msg.method_.Some? && msg.id.None? {
        OneCall(throws, log, Notification(msg));
        if notificationHandler { RunHandler(Notification(msg), throws); }
      }
    }

    /** A handler's failure stays out of the reader. */
    method RunHandler(effect: Effect, throws: seq<Effect> -> bool)
      modifies this`log
      ensures log == old(log) + [effect]
    {
      var caught := Call(effect, throws);
    }

    method Call(effect: Effect, throws: seq<Effect> -> bool) returns (done: Completion)
      modifies this`log
      ensures log == old(log) + [effect] && (done.Threw? <==> throws(log))
    {
      log := log + [effect];
      done := if throws(log) then Threw else Done;
    }
  }
}

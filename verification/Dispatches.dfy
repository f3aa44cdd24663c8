/** What a stream of messages makes the router call, however it comes in chunks. */
module Dispatches {
  import opened Options
  import Text
  import opened Framing
  import opened Routing
  import opened Sequences

  function TakeChunks(parse: string -> Option<Json>, h: Handlers, throws: seq<Effect> -> bool, s: Stream,
                      chunks: seq<string>): Stream
    decreases |chunks|
  {
    if chunks == [] then s
    else TakeChunks(parse, h, throws, TakeChunk(parse, h, throws, s, chunks[0]), chunks[1..])
  }

  /** The calls due for some raw lines. */
  function Due(parse: string -> Option<Json>, h: Handlers, raw: seq<string>): seq<Effect> {
    Routed(parse, h, Kept(raw))
  }

  lemma DueJoins(parse: string -> Option<Json>, h: Handlers, raw: seq<string>, more: seq<string>)
    ensures Due(parse, h, raw + more) == Due(parse, h, raw) + Due(parse, h, more)
  {
    hide Routed, Kept;
    KeptJoins(raw, more);
    RoutesEachLineAlone(parse, h, Kept(raw), Kept(more));
  }

  lemma NothingDue(parse: string -> Option<Json>, h: Handlers)
    ensures Due(parse, h, []) == []
  {}

  // Where the chunks are cut.

  /** Behind a line one of whose calls escapes, no line has a call due. */
  ghost predicate NothingBehindEscape(parse: string -> Option<Json>, h: Handlers, throws: seq<Effect> -> bool,
                                      before: seq<Effect>, raw: seq<string>) {
    forall k :: 0 <= k <= |raw| ==>
      RunsThrough(throws, before, Due(parse, h, raw[..k])) || Due(parse, h, raw[k..]) == []
  }

  /** The lines of two chunks, taken one after the other, are those of the two as one. */
  lemma TwoChunks(held: string, chunk: string, more: string)
    ensures var a := SplitLines(held + chunk); var b := SplitLines(a.held + more);
            SplitLines(held + (chunk + more)) == Split(a.lines + b.lines, b.held) && '\n' !in a.held
  {
    hide Splitting;
    var a := SplitLines(held + chunk);
    Associates(held, chunk, more);
    CutAnywhere([], held + chunk, more);
    HeldHasNoNewline([], held + chunk);
    SplittingAfter(a.lines, [], a.held + more);
    assert a.lines + [] == a.lines;
  }

  lemma EmptyChunk(parse: string -> Option<Json>, h: Handlers, throws: seq<Effect> -> bool, s: Stream)
    requires '\n' !in s.held
    ensures TakeChunk(parse, h, throws, s, "") == s
  {
    assert s.held + "" == s.held;
    assert SplitLines(s.held) == Split([], s.held);
    assert s.raw + [] == s.raw && s.log + [] == s.log;
  }

  /** Two chunks as one, where the first has `a` lines and the second adds `b`. */
  lemma TwoChunksRoute(parse: string -> Option<Json>, h: Handlers, throws: seq<Effect> -> bool, s: Stream,
                       chunk: string, more: string)
    ensures var a := SplitLines(s.held + chunk); var b := SplitLines(a.held + more);
            var dueA, dueB := Due(parse, h, a.lines), Due(parse, h, b.lines);
            var first := TakeChunk(parse, h, throws, s, chunk);
            var two := TakeChunk(parse, h, throws, first, more);
            var one := TakeChunk(parse, h, throws, s, chunk + more);
            && one.raw == two.raw && one.held == two.held
            && (RunsThrough(throws, s.log, dueA) ==> first.log == s.log + dueA && one.log == two.log)
            && (!RunsThrough(throws, s.log, dueA) ==> one.log == first.log)
            && two.log == first.log + Ran(throws, first.log, dueB)
  {
    hide Splitting, Routed, Kept, RunsThrough, Ran;
    var a := SplitLines(s.held + chunk);
    var b := SplitLines(a.held + more);
    var dueA, dueB := Due(parse, h, a.lines), Due(parse, h, b.lines);
    TwoChunks(s.held, chunk, more);
    DueJoins(parse, h, a.lines, b.lines);
    RanSplits(throws, s.log, dueA, dueB);
    StopsAtFirstEscape(throws, s.log, dueA);
    Associates(s.raw, a.lines, b.lines);
    Associates(s.log, dueA, Ran(throws, s.log + dueA, dueB));
  }

  /** What may stand behind an escape may stand behind the lines before a cut. */
  lemma BehindTheCut(parse: string -> Option<Json>, h: Handlers, throws: seq<Effect> -> bool, before: seq<Effect>,
                     a: seq<string>, b: seq<string>)
    requires NothingBehindEscape(parse, h, throws, before, a + b)
    ensures var dueA := Due(parse, h, a);
            if RunsThrough(throws, before, dueA) then NothingBehindEscape(parse, h, throws, before + dueA, b)
            else Due(parse, h, b) == []
  {
    hide Routed, Kept, RunsThrough, Ran, Due;
    var dueA := Due(parse, h, a);
    assert (a + b)[..|a|] == a && (a + b)[|a|..] == b;
    if RunsThrough(throws, before, dueA) {
      forall k | 0 <= k <= |b|
        ensures RunsThrough(throws, before + dueA, Due(parse, h, b[..k])) || Due(parse, h, b[k..]) == []
      {
        assert (a + b)[..|a| + k] == a + b[..k] && (a + b)[|a| + k..] == b[k..];
        DueJoins(parse, h, a, b[..k]);
        RanSplits(throws, before, dueA, Due(parse, h, b[..k]));
      }
    }
  }

  lemma NothingDueNothingBehind(parse: string -> Option<Json>, h: Handlers, throws: seq<Effect> -> bool,
                                before: seq<Effect>, raw: seq<string>)
    requires Due(parse, h, raw) == []
    ensures NothingBehindEscape(parse, h, throws, before, raw)
  {
    hide Routed, Kept, Due;
    forall k | 0 <= k <= |raw| ensures Due(parse, h, raw[k..]) == [] {
      assert raw[..k] + raw[k..] == raw;
      DueJoins(parse, h, raw[..k], raw[k..]);
    }
  }

  lemma {:induction false} ChunksRouteAsTheWhole(parse: string -> Option<Json>, h: Handlers,
                                                 throws: seq<Effect> -> bool, s: Stream, chunks: seq<string>)
    requires '\n' !in s.held
    requires NothingBehindEscape(parse, h, throws, s.log, SplitLines(s.held + Concat(chunks)).lines)
    ensures TakeChunks(parse, h, throws, s, chunks) == TakeChunk(parse, h, throws, s, Concat(chunks))
    decreases |chunks|
  {
    if chunks == [] {
      EmptyChunk(parse, h, throws, s);
    } else {
      hide NothingBehindEscape, Splitting, TakeChunk, Due, RunsThrough, Ran;
      var chunk, more := chunks[0], Concat(chunks[1..]);
      var a := SplitLines(s.held + chunk);
      var b := SplitLines(a.held + more);
      var first := TakeChunk(parse, h, throws, s, chunk);
      assert first.held == a.held by { HeldOf(parse, h, throws, s, chunk); }
      TwoChunks(s.held, chunk, more);
      BehindTheCut(parse, h, throws, s.log, a.lines, b.lines);
      TwoChunksRoute(parse, h, throws, s, chunk, more);
      if !RunsThrough(throws, s.log, Due(parse, h, a.lines)) {
        NothingDueNothingBehind(parse, h, throws, first.log, b.lines);
        NoCall(throws, first.log);
      }
      ChunksRouteAsTheWhole(parse, h, throws, first, chunks[1..]);
    }
  }

  lemma HeldOf(parse: string -> Option<Json>, h: Handlers, throws: seq<Effect> -> bool, s: Stream, chunk: string)
    ensures TakeChunk(parse, h, throws, s, chunk).held == SplitLines(s.held + chunk).held
  {}

  /** A text cut between two of its lines. */
  lemma CutBetweenLines(held: string, text: string, k: nat) returns (first: string, rest: string)
    requires '\n' !in held && 0 < k <= |SplitLines(held + text).lines|
    ensures var raw := SplitLines(held + text).lines;
            && first + rest == text
            && SplitLines(held + first) == Split(raw[..k], "")
            && SplitLines("" + rest).lines == raw[k..]
  {
    hide Splitting, Joined;
    var total := held + text;
    var raw, tail := SplitLines(total).lines, SplitLines(total).held;
    var a, b := raw[..k], raw[k..];
    WritingUndoesFraming([], total);
    assert a + b == raw;
    JoinedOfTwo(a, b);
    Associates(Joined(a), Joined(b), tail);
    rest := Joined(b) + tail;
    assert total == Joined(a) + rest by { JoinedNothing(total); }
    HeldIsShort(held, text, a, rest);
    first := Joined(a)[|held|..];
    assert held + first == Joined(a) && first + rest == text by { CutBehind(held, text, Joined(a), rest); }
    assert Joined(a) + "" == Joined(a) && "" + rest == rest && [] + a == a && [] + b == b;
    FramingUndoesWriting([], a, "");
    FramingUndoesWriting([], b, tail);
  }

  lemma JoinedNothing(total: string)
    ensures Joined([]) + total == total
  {}

  lemma HeldIsShort(held: string, text: string, a: seq<string>, rest: string)
    requires '\n' !in held && a != [] && held + text == Joined(a) + rest
    ensures |held| <= |Joined(a)|
  {
    var n := |a[0]|;
    assert Joined(a) == a[0] + "\n" + Joined(a[1..]);
    assert (Joined(a) + rest)[n] == '\n';
    assert forall i :: 0 <= i < |held| ==> (held + text)[i] == held[i];
  }

  lemma CutBehind(held: string, text: string, a: string, rest: string)
    requires held + text == a + rest && |held| <= |a|
    ensures held + a[|held|..] == a && a[|held|..] + rest == text
  {
    assert a[..|held|] == (a + rest)[..|held|] == (held + text)[..|held|] == held;
    DropInFront(a, rest, |held|);
    DropFront(held, text);
  }

  /** However the text is cut into chunks the same calls are made, exactly if no call escapes from a line that
      another line with a call due stands behind: the lines taken with it are lost to the loop it aborts. */
  lemma CutsAgreeExactly(parse: string -> Option<Json>, h: Handlers, throws: seq<Effect> -> bool, s: Stream,
                         text: string)
    requires '\n' !in s.held
    ensures (forall chunks :: Concat(chunks) == text ==>
               TakeChunks(parse, h, throws, s, chunks).log == TakeChunk(parse, h, throws, s, text).log)
       <==> NothingBehindEscape(parse, h, throws, s.log, SplitLines(s.held + text).lines)
  {
    hide TakeChunks, TakeChunk, Splitting, NothingBehindEscape;
    var raw := SplitLines(s.held + text).lines;
    if NothingBehindEscape(parse, h, throws, s.log, raw) {
      forall chunks | Concat(chunks) == text
        ensures TakeChunks(parse, h, throws, s, chunks).log == TakeChunk(parse, h, throws, s, text).log
      {
        ChunksRouteAsTheWhole(parse, h, throws, s, chunks);
      }
    } else {
      var chunks := LosingCut(parse, h, throws, s, text);
    }
  }

  /** The cut behind the line the call escapes from makes more calls than none does. */
  lemma LosingCut(parse: string -> Option<Json>, h: Handlers, throws: seq<Effect> -> bool, s: Stream, text: string)
    returns (chunks: seq<string>)
    requires '\n' !in s.held
    requires !NothingBehindEscape(parse, h, throws, s.log, SplitLines(s.held + text).lines)
    ensures Concat(chunks) == text
    ensures |TakeChunk(parse, h, throws, s, text).log| < |TakeChunks(parse, h, throws, s, chunks).log|
  {
    hide TakeChunk, Splitting, Due, RunsThrough, Ran;
    var raw := SplitLines(s.held + text).lines;
    var k: nat :| k <= |raw| && !RunsThrough(throws, s.log, Due(parse, h, raw[..k])) && Due(parse, h, raw[k..]) != [];
    if k == 0 {
      assert raw[..k] == [];
      NothingDue(parse, h);
      NoCall(throws, s.log);
      assert false;
    }
    var first, rest := CutBetweenLines(s.held, text, k);
    chunks := [first, rest];
    TwoPieces(first, rest);
    var t := TakeChunk(parse, h, throws, s, first);
    TwoChunksRoute(parse, h, throws, s, first, rest);
    SomeCall(throws, t.log, Due(parse, h, raw[k..]));
    TakesBoth(parse, h, throws, s, first, rest);
  }

  lemma TwoPieces(first: string, rest: string)
    ensures Concat([first, rest]) == first + rest
  {
    assert [first, rest][1..] == [rest] && [rest][1..] == [];
    assert Concat([rest]) == rest + "" == rest;
  }

  lemma TakesBoth(parse: string -> Option<Json>, h: Handlers, throws: seq<Effect> -> bool, s: Stream, first: string,
                  rest: string)
    ensures TakeChunks(parse, h, throws, s, [first, rest])
         == TakeChunk(parse, h, throws, TakeChunk(parse, h, throws, s, first), rest)
  {
    hide TakeChunk;
    var t := TakeChunk(parse, h, throws, s, first);
    assert [first, rest][1..] == [rest] && [rest][1..] == [];
    assert TakeChunks(parse, h, throws, t, [rest]) == TakeChunk(parse, h, throws, t, rest);
  }

  lemma SomeCall(throws: seq<Effect> -> bool, before: seq<Effect>, due: seq<Effect>)
    requires due != []
    ensures Ran(throws, before, due) != []
  {}

  // What was written.

  /** The pieces `f` makes of each element, in order. */
  function Gathered<A, B>(from: seq<A>, f: A -> seq<B>): seq<B> {
    if from == [] then [] else Gathered(from[..|from| - 1], f) + f(from[|from| - 1])
  }

  lemma {:induction false} GatheredJoins<A, B>(a: seq<A>, b: seq<A>, f: A -> seq<B>)
    ensures Gathered(a + b, f) == Gathered(a, f) + Gathered(b, f)
    decreases |b|
  {
    if b == [] {
      assert a + b == a;
    } else {
      var rest, last := b[..|b| - 1], b[|b| - 1];
      GatheredJoins(a, rest, f);
      LastOfJoin(a, b);
      Associates(Gathered(a, f), Gathered(rest, f), f(last));
    }
  }

  lemma GatheredOne<A, B>(x: A, f: A -> seq<B>)
    ensures Gathered([x], f) == f(x)
  {
    assert [x][..0] == [];
  }

  /** A line of the stream: a JSON value, noise that does not look like one, or a line that only looks like one. */
  datatype Item = Sent(json: Json) | Noise(line: string) | Garbled(line: string)

  function LineOf(encode: Json -> string, item: Item): string {
    match item
    case Sent(json) => encode(json)
    case Noise(line) => line
    case Garbled(line) => line
  }

  predicate StartsAsJson(line: string) { line != "" && (line[0] == '{' || line[0] == '[') }

  /** A line is read as the item it was written for. */
  predicate ReadsBack(parse: string -> Option<Json>, encode: Json -> string, item: Item) {
    var line := LineOf(encode, item);
    var trimmed := Text.Trim(line);
    && '\n' !in line
    && match item
       case Sent(json) => StartsAsJson(trimmed) && parse(trimmed) == Some(json)
       case Noise(_) => !StartsAsJson(trimmed)
       case Garbled(_) => StartsAsJson(trimmed) && parse(trimmed).None?
  }

  function LinesOf(encode: Json -> string, items: seq<Item>): seq<string> {
    Gathered(items, (item: Item) => [LineOf(encode, item)])
  }

  function ObjectOf(json: Json): seq<Message> { if json.Object? then [json.msg] else [] }

  /** The messages of one line: of a batch, its objects. */
  function MessagesOf(item: Item): seq<Message> {
    if !item.Sent? then []
    else if item.json.Array? then Gathered(item.json.items, ObjectOf)
    else ObjectOf(item.json)
  }

  predicate IsResponse(m: Message) { m.id.Some? && (m.hasResult || m.hasError) }

  predicate IsRequest(m: Message) { m.id.Some? && m.method_.Some? && !m.hasResult && !m.hasError }

  predicate IsNotification(m: Message) { m.id.None? && m.method_.Some? }

  function Responses(m: Message): seq<Message> { if IsResponse(m) then [m] else [] }

  function Requests(m: Message): seq<Message> { if IsRequest(m) then [m] else [] }

  function Notifications(m: Message): seq<Message> { if IsNotification(m) then [m] else [] }

  /** What is reported of an unreadable line: its first 200 characters. */
  function Unreadable(item: Item): seq<string> {
    if !item.Garbled? then []
    else
      var line := Text.Trim(item.line);
      [if |line| <= 200 then line else line[..200]]
  }

  function Settling(e: Effect): seq<Message> { if e.Response? then [e.msg] else [] }

  function Handing(e: Effect): seq<Message> { if e.ServerRequest? then [e.msg] else [] }

  function Refusing(e: Effect): seq<Message> { if e.RefusedRequest? then [e.msg] else [] }

  function Notifying(e: Effect): seq<Message> { if e.Notification? then [e.msg] else [] }

  function Failing(e: Effect): seq<string> { if e.ParseFailure? then [e.head] else [] }

  /** The calls settle the responses written, hand over or refuse the requests, pass on the notifications a handler
      waits for and report the unreadable lines: each once, in the order written, and nothing else. */
  ghost predicate Tells(h: Handlers, items: seq<Item>, calls: seq<Effect>) {
    var messages := Gathered(items, MessagesOf);
    && Gathered(calls, Settling) == Gathered(messages, Responses)
    && Gathered(calls, Handing) == (if h.serverRequest then Gathered(messages, Requests) else [])
    && Gathered(calls, Refusing) == (if h.serverRequest then [] else Gathered(messages, Requests))
    && Gathered(calls, Notifying) == (if h.notification then Gathered(messages, Notifications) else [])
    && Gathered(calls, Failing) == Gathered(items, Unreadable)
  }

  lemma {:induction false} GatheredNothing<A, B>(from: seq<A>, f: A -> seq<B>)
    requires forall x :: f(x) == []
    ensures Gathered(from, f) == []
    decreases |from|
  {
    if from != [] { GatheredNothing(from[..|from| - 1], f); }
  }

  lemma {:induction false} GatheredItems<B>(h: Handlers, items: seq<Json>, f: Effect -> seq<B>, g: Message -> seq<B>)
    requires forall m :: Gathered(RouteMessage(h, m), f) == g(m)
    ensures Gathered(RouteItems(h, items), f) == Gathered(Gathered(items, ObjectOf), g)
    decreases |items|
  {
    if items != [] {
      hide RouteMessage;
      var rest, last := items[..|items| - 1], items[|items| - 1];
      GatheredItems(h, rest, f, g);
      GatheredObject(h, last, f, g);
      GatheredJoins(RouteItems(h, rest), RouteItem(h, last), f);
      GatheredJoins(Gathered(rest, ObjectOf), ObjectOf(last), g);
    }
  }

  lemma GatheredObject<B>(h: Handlers, json: Json, f: Effect -> seq<B>, g: Message -> seq<B>)
    requires forall m :: Gathered(RouteMessage(h, m), f) == g(m)
    ensures Gathered(RouteItem(h, json), f) == Gathered(ObjectOf(json), g)
  {
    hide RouteMessage;
    if json.Object? { GatheredOne(json.msg, g); }
  }

  lemma GatheredItem<B>(parse: string -> Option<Json>, encode: Json -> string, h: Handlers, item: Item,
                        f: Effect -> seq<B>, g: Message -> seq<B>)
    requires ReadsBack(parse, encode, item)
    requires forall m :: Gathered(RouteMessage(h, m), f) == g(m)
    requires forall head :: f(ParseFailure(head)) == []
    ensures Gathered(Due(parse, h, [LineOf(encode, item)]), f) == Gathered(MessagesOf(item), g)
  {
    hide RouteMessage, Gathered;
    var line := LineOf(encode, item);
    DueOne(parse, h, line);
    match item
    case Sent(json) =>
      if json.Array? { GatheredItems(h, json.items, f, g); } else { GatheredObject(h, json, f, g); }
    case Noise(_) => GatheredEmpty(f); GatheredEmpty(g);
    case Garbled(_) => GatheredOne(ParseFailure(Head(Text.Trim(line))), f); GatheredEmpty(g);
  }

  lemma GatheredEmpty<A, B>(f: A -> seq<B>)
    ensures Gathered([], f) == []
  {}

  lemma DueOne(parse: string -> Option<Json>, h: Handlers, line: string)
    ensures Due(parse, h, [line]) == RouteLine(parse, h, Text.Trim(line))
  {
    hide RouteParsed;
    var trimmed := Text.Trim(line);
    assert [line][..0] == [] && Kept([]) == [] && Routed(parse, h, []) == [];
    if Blank(line) {
      assert Kept([line]) == [];
    } else {
      assert Kept([line]) == [] + [trimmed] == [trimmed];
      assert [trimmed][..0] == [];
      assert Routed(parse, h, [trimmed]) == [] + RouteLine(parse, h, trimmed) == RouteLine(parse, h, trimmed);
    }
  }

  ghost predicate AllReadBack(parse: string -> Option<Json>, encode: Json -> string, items: seq<Item>) {
    forall i :: 0 <= i < |items| ==> ReadsBack(parse, encode, items[i])
  }

  lemma LastLine(parse: string -> Option<Json>, encode: Json -> string, h: Handlers, items: seq<Item>)
    requires items != [] && AllReadBack(parse, encode, items)
    ensures var rest, last := items[..|items| - 1], items[|items| - 1];
            && AllReadBack(parse, encode, rest) && ReadsBack(parse, encode, last)
            && Due(parse, h, LinesOf(encode, items))
            == Due(parse, h, LinesOf(encode, rest)) + Due(parse, h, [LineOf(encode, last)])
  {
    hide Due, ReadsBack;
    var rest, last := items[..|items| - 1], items[|items| - 1];
    DueJoins(parse, h, LinesOf(encode, rest), [LineOf(encode, last)]);
  }

  lemma {:induction false} GatheredDue<B>(parse: string -> Option<Json>, encode: Json -> string, h: Handlers,
                                          items: seq<Item>, f: Effect -> seq<B>, g: Message -> seq<B>)
    requires AllReadBack(parse, encode, items)
    requires forall m :: Gathered(RouteMessage(h, m), f) == g(m)
    requires forall head :: f(ParseFailure(head)) == []
    ensures Gathered(Due(parse, h, LinesOf(encode, items)), f) == Gathered(Gathered(items, MessagesOf), g)
    decreases |items|
  {
    if items != [] {
      hide RouteMessage, Due, LinesOf, ReadsBack, AllReadBack;
      var rest, last := items[..|items| - 1], items[|items| - 1];
      LastLine(parse, encode, h, items);
      GatheredDue(parse, encode, h, rest, f, g);
      GatheredItem(parse, encode, h, last, f, g);
      GatheredJoins(Due(parse, h, LinesOf(encode, rest)), Due(parse, h, [LineOf(encode, last)]), f);
      GatheredJoins(Gathered(rest, MessagesOf), MessagesOf(last), g);
    }
  }

  lemma FailuresOfItem(parse: string -> Option<Json>, encode: Json -> string, h: Handlers, item: Item)
    requires ReadsBack(parse, encode, item)
    ensures Gathered(Due(parse, h, [LineOf(encode, item)]), Failing) == Unreadable(item)
  {
    hide Gathered, Due, Kept, Routed, RouteItems, RouteItem, Text.Trim;
    var line := LineOf(encode, item);
    DueOne(parse, h, line);
    match item
    case Sent(json) =>
      if json.Array? { ItemsFailNone(h, json.items); } else { ItemFailsNone(h, json); }
    case Noise(_) => GatheredEmpty(Failing);
    case Garbled(_) => GatheredOne(ParseFailure(Head(Text.Trim(line))), Failing);
  }

  lemma ItemFailsNone(h: Handlers, json: Json)
    ensures Gathered(RouteItem(h, json), Failing) == []
  {
    if json.Object? { OneMessage(h, json.msg); }
  }

  lemma {:induction false} ItemsFailNone(h: Handlers, items: seq<Json>)
    ensures Gathered(RouteItems(h, items), Failing) == []
    decreases |items|
  {
    if items != [] {
      hide RouteItem;
      var rest, last := items[..|items| - 1], items[|items| - 1];
      ItemsFailNone(h, rest);
      ItemFailsNone(h, last);
      GatheredJoins(RouteItems(h, rest), RouteItem(h, last), Failing);
    }
  }

  lemma {:induction false} FailuresDue(parse: string -> Option<Json>, encode: Json -> string, h: Handlers,
                                       items: seq<Item>)
    requires AllReadBack(parse, encode, items)
    ensures Gathered(Due(parse, h, LinesOf(encode, items)), Failing) == Gathered(items, Unreadable)
    decreases |items|
  {
    if items != [] {
      hide Due, LinesOf, ReadsBack, AllReadBack;
      var rest, last := items[..|items| - 1], items[|items| - 1];
      LastLine(parse, encode, h, items);
      FailuresDue(parse, encode, h, rest);
      FailuresOfItem(parse, encode, h, last);
      GatheredJoins(Due(parse, h, LinesOf(encode, rest)), Due(parse, h, [LineOf(encode, last)]), Failing);
    }
  }

  /** A message has at most one call, and which is its shape's doing. */
  lemma OneMessage(h: Handlers, m: Message)
    ensures |RouteMessage(h, m)| <= 1
    ensures Gathered(RouteMessage(h, m), Settling) == Responses(m)
    ensures Gathered(RouteMessage(h, m), Handing) == (if h.serverRequest then Requests(m) else [])
    ensures Gathered(RouteMessage(h, m), Refusing) == (if h.serverRequest then [] else Requests(m))
    ensures Gathered(RouteMessage(h, m), Notifying) == (if h.notification then Notifications(m) else [])
    ensures Gathered(RouteMessage(h, m), Failing) == []
  {
    hide Gathered;
    var calls := RouteMessage(h, m);
    if calls == [] {
      GatheredEmpty(Settling); GatheredEmpty(Handing); GatheredEmpty(Refusing); GatheredEmpty(Notifying);
      GatheredEmpty(Failing);
    } else {
      assert calls == [calls[0]];
      GatheredOne(calls[0], Settling); GatheredOne(calls[0], Handing); GatheredOne(calls[0], Refusing);
      GatheredOne(calls[0], Notifying); GatheredOne(calls[0], Failing);
    }
  }

  lemma DueTells(parse: string -> Option<Json>, encode: Json -> string, h: Handlers, items: seq<Item>)
    requires AllReadBack(parse, encode, items)
    ensures Tells(h, items, Due(parse, h, LinesOf(encode, items)))
  {
    hide RouteMessage, Due, LinesOf, ReadsBack, AllReadBack, Gathered;
    forall m ensures
      && Gathered(RouteMessage(h, m), Settling) == Responses(m)
      && Gathered(RouteMessage(h, m), Handing) == (if h.serverRequest then Requests(m) else [])
      && Gathered(RouteMessage(h, m), Refusing) == (if h.serverRequest then [] else Requests(m))
      && Gathered(RouteMessage(h, m), Notifying) == (if h.notification then Notifications(m) else [])
    {
      OneMessage(h, m);
    }
    var none: Message -> seq<Message> := m => [];
    GatheredNothing(Gathered(items, MessagesOf), none);
    GatheredDue(parse, encode, h, items, Settling, Responses);
    GatheredDue(parse, encode, h, items, Handing, if h.serverRequest then Requests else none);
    GatheredDue(parse, encode, h, items, Refusing, if h.serverRequest then none else Requests);
    GatheredDue(parse, encode, h, items, Notifying, if h.notification then Notifications else none);
    FailuresDue(parse, encode, h, items);
  }

  lemma LinesReadBack(parse: string -> Option<Json>, encode: Json -> string, items: seq<Item>, k: nat)
    requires AllReadBack(parse, encode, items) && k <= |items|
    ensures AllReadBack(parse, encode, items[..k])
    ensures LinesOf(encode, items) == LinesOf(encode, items[..k]) + LinesOf(encode, items[k..])
  {
    hide ReadsBack;
    assert items[..k] + items[k..] == items;
    GatheredJoins(items[..k], items[k..], (item: Item) => [LineOf(encode, item)]);
  }

  lemma {:induction false} LinesAreOneLiners(parse: string -> Option<Json>, encode: Json -> string, items: seq<Item>)
    requires AllReadBack(parse, encode, items)
    ensures OneLiners(LinesOf(encode, items))
    decreases |items|
  {
    if items != [] {
      hide LineOf, StartsAsJson;
      LinesAreOneLiners(parse, encode, items[..|items| - 1]);
    }
  }

  /** Values, noise and unreadable lines written one per line, with a tail begun, make the router call for each
      message what its shape asks for, report each unreadable line and do nothing for noise, in the order written
      and wherever the stream is cut; so long as the hooks behind no `catch` do not throw, whatever handlers do. */
  lemma DispatchesAreTheMessagesWritten(parse: string -> Option<Json>, encode: Json -> string, h: Handlers,
                                        throws: seq<Effect> -> bool, items: seq<Item>, tail: string,
                                        chunks: seq<string>)
    requires AllReadBack(parse, encode, items) && '\n' !in tail
    requires Concat(chunks) == Joined(LinesOf(encode, items)) + tail
    requires RunsThrough(throws, [], Due(parse, h, LinesOf(encode, items)))
    ensures var end := TakeChunks(parse, h, throws, Stream([], "", []), chunks);
            && end.held == tail && end.raw == LinesOf(encode, items)
            && Tells(h, items, end.log)
            && forall k :: 0 <= k <= |items| ==>
                 Due(parse, h, LinesOf(encode, items[..k])) <= end.log
                 && Tells(h, items[..k], Due(parse, h, LinesOf(encode, items[..k])))
  {
    hide Due, LinesOf, AllReadBack, RunsThrough, Ran, Tells, Splitting, Joined, NothingBehindEscape, TakeChunks;
    var lines, start := LinesOf(encode, items), Stream([], "", []);
    var due, whole := Due(parse, h, lines), Concat(chunks);
    LinesAreOneLiners(parse, encode, items);
    FramingUndoesWriting([], lines, tail);
    assert "" + whole == whole && [] + lines == lines && [] + due == due;
    HooksHold(parse, h, throws, [], lines);
    ChunksRouteAsTheWhole(parse, h, throws, start, chunks);
    RunsWhole(parse, h, throws, start, whole);
    DueTells(parse, encode, h, items);
    forall k | 0 <= k <= |items|
      ensures Due(parse, h, LinesOf(encode, items[..k])) <= due
      ensures Tells(h, items[..k], Due(parse, h, LinesOf(encode, items[..k])))
    {
      LinesReadBack(parse, encode, items, k);
      DueJoins(parse, h, LinesOf(encode, items[..k]), LinesOf(encode, items[k..]));
      DueTells(parse, encode, h, items[..k]);
    }
  }

  lemma HooksHold(parse: string -> Option<Json>, h: Handlers, throws: seq<Effect> -> bool, before: seq<Effect>,
                  raw: seq<string>)
    requires RunsThrough(throws, before, Due(parse, h, raw))
    ensures NothingBehindEscape(parse, h, throws, before, raw)
  {
    hide Due, RunsThrough, Ran;
    forall k | 0 <= k <= |raw| ensures RunsThrough(throws, before, Due(parse, h, raw[..k])) {
      assert raw[..k] + raw[k..] == raw;
      DueJoins(parse, h, raw[..k], raw[k..]);
      RanSplits(throws, before, Due(parse, h, raw[..k]), Due(parse, h, raw[k..]));
    }
  }

  lemma RunsWhole(parse: string -> Option<Json>, h: Handlers, throws: seq<Effect> -> bool, s: Stream, text: string)
    requires RunsThrough(throws, s.log, Due(parse, h, SplitLines(s.held + text).lines))
    ensures var split := SplitLines(s.held + text);
            TakeChunk(parse, h, throws, s, text)
            == Stream(s.raw + split.lines, split.held, s.log + Due(parse, h, split.lines))
  {
    hide Splitting, Routed, Kept, RunsThrough, Ran;
    StopsAtFirstEscape(throws, s.log, Due(parse, h, SplitLines(s.held + text).lines));
  }
}

/**
 * The tokenizer of include/jsmn.h (not strict, no parent links), written with an explicit stack of
 * the open containers. JsmnInPlace shows that the C code, which has no stack, computes the same.
 */
module Jsmn {

  datatype Type = Object | Array | Text | Primitive

  /** `end == -1` marks a container that is still open. */
  datatype Token = Token(kind: Type, start: int, end: int, size: nat)

  datatype Error = NoMemory | Invalid | Partial

  /**
   * `tokens` are those allocated so far (`toknext` of them), `super` is `toksuper`. The stack lists
   * the open containers, outermost first; `orphans` counts the tokens made while there was no super.
   */
  datatype Parser = Parser(pos: nat, tokens: seq<Token>, super: int, stack: seq<nat>, orphans: nat)

  datatype Outcome = Go(p: Parser) | Stop(error: Error)

  datatype Result = Done(count: nat) | Failed(error: Error)

  const INITIAL: Parser := Parser(0, [], -1, [], 0)

  predicate Container(t: Token) {
    t.kind == Object || t.kind == Array
  }

  predicate Blank(c: char) {
    c == '\t' || c == '\r' || c == '\n' || c == ' '
  }

  // ----- strings -----

  datatype Scan = Closed(at: nat) | BadEscape | Unclosed

  predicate Hex(c: char) {
    '0' <= c <= '9' || 'A' <= c <= 'F' || 'a' <= c <= 'f'
  }

  /** The end of at most n hexadecimal digits from i, or a character that is none. */
  function HexEnd(js: string, i: nat, n: nat): (r: (bool, nat))
    ensures r.0 ==> i <= r.1 <= i + n && (i <= |js| ==> r.1 <= |js|)
    decreases n
  {
    if n == 0 || i >= |js| || js[i] == '\0' then (true, i)
    else if Hex(js[i]) then HexEnd(js, i + 1, n - 1)
    else (false, i)
  }

  /** Where the string whose contents start at i is closed. */
  function StringEnd(js: string, i: nat): (r: Scan)
    ensures r.Closed? ==> i <= r.at < |js| && js[r.at] == '"'
    decreases |js| - i
  {
    if i >= |js| || js[i] == '\0' then Unclosed
    else if js[i] == '"' then Closed(i)
    else if js[i] == '\\' && i + 1 < |js| then
      if js[i + 1] in "\"/\\bfrnt" then StringEnd(js, i + 2)
      else if js[i + 1] == 'u' then
        var (ok, j) := HexEnd(js, i + 2, 4);
        if ok then StringEnd(js, j) else BadEscape
      else BadEscape
    else StringEnd(js, i + 1)
  }

  // ----- primitives -----

  datatype Extent = Ends(at: nat) | BadCharacter

  predicate Delimiter(c: char) {
    c in ":\t\r\n ,]}"
  }

  predicate Printable(c: char) {
    32 <= c as int < 127
  }

  function PrimitiveEnd(js: string, i: nat): (r: Extent)
    requires i <= |js|
    ensures r.Ends? ==> i <= r.at <= |js|
    ensures r.Ends? && i < |js| && js[i] != '\0' && !Delimiter(js[i]) ==> i < r.at
    decreases |js| - i
  {
    if i == |js| || js[i] == '\0' || Delimiter(js[i]) then Ends(i)
    else if Printable(js[i]) then PrimitiveEnd(js, i + 1)
    else BadCharacter
  }

  // ----- one character -----

  /** One more child for the token `super`, if there is one. */
  function Bump(ts: seq<Token>, super: int): (r: seq<Token>)
    ensures |r| == |ts|
  {
    if 0 <= super < |ts| then ts[super := ts[super].(size := ts[super].size + 1)] else ts
  }

  /** Append a closed token. */
  function Emit(p: Parser, kind: Type, start: nat, end: nat, pos: nat): Parser {
    Parser(pos, Bump(p.tokens, p.super) + [Token(kind, start, end, 0)], p.super, p.stack,
           if p.super == -1 then p.orphans + 1 else p.orphans)
  }

  function Top(stack: seq<nat>): int {
    if stack == [] then -1 else stack[|stack| - 1]
  }

  function Open(p: Parser, kind: Type): Parser {
    Parser(p.pos + 1, Bump(p.tokens, p.super) + [Token(kind, p.pos, -1, 0)], |p.tokens|, p.stack + [|p.tokens|],
           if p.super == -1 then p.orphans + 1 else p.orphans)
  }

  function Close(p: Parser, kind: Type): Outcome {
    var top := Top(p.stack);
    if top < 0 || top >= |p.tokens| || p.tokens[top].kind != kind then Stop(Invalid)
    else
      var rest := p.stack[..|p.stack| - 1];
      Go(p.(pos := p.pos + 1, tokens := p.tokens[top := p.tokens[top].(end := p.pos + 1)],
            stack := rest, super := Top(rest)))
  }

  predicate AtEnd(js: string, pos: nat) {
    pos >= |js| || js[pos] == '\0'
  }

  /** The effect of the character (or string, or primitive) at the position of the parser. */
  function Step(js: string, p: Parser, room: nat): (r: Outcome)
    requires !AtEnd(js, p.pos)
    ensures r.Go? ==> p.pos < r.p.pos <= |js|
  {
    var c := js[p.pos];
    if c == '{' || c == '[' then
      if |p.tokens| >= room then Stop(NoMemory) else Go(Open(p, if c == '{' then Object else Array))
    else if c == '}' || c == ']' then Close(p, if c == '}' then Object else Array)
    else if c == '"' then
      match StringEnd(js, p.pos + 1)
      case Closed(q) =>
        if |p.tokens| >= room then Stop(NoMemory) else Go(Emit(p, Text, p.pos + 1, q, q + 1))
      case BadEscape => Stop(Invalid)
      case Unclosed => Stop(Partial)
    else if Blank(c) then Go(p.(pos := p.pos + 1))
    else if c == ':' then Go(p.(pos := p.pos + 1, super := |p.tokens| - 1))
    else if c == ',' then
      if 0 <= p.super < |p.tokens| && !Container(p.tokens[p.super]) && p.stack != []
      then Go(p.(pos := p.pos + 1, super := Top(p.stack)))
      else Go(p.(pos := p.pos + 1))
    else
      match PrimitiveEnd(js, p.pos)
      case Ends(q) =>
        if |p.tokens| >= room then Stop(NoMemory) else Go(Emit(p, Primitive, p.pos, q, q))
      case BadCharacter => Stop(Invalid)
  }

  // ----- a whole parse -----

  /** Parse until the end of the text or an error: where the parser stands then, and what it returns. */
  function Run(js: string, p: Parser, room: nat): (Parser, Result)
    decreases |js| - p.pos
  {
    if AtEnd(js, p.pos) then (p, if p.stack == [] then Done(|p.tokens|) else Failed(Partial))
    else
      match Step(js, p, room)
      case Go(q) => Run(js, q, room)
      case Stop(e) => (p, Failed(e))
  }

  // ----- what every parser state satisfies -----

  /** The open tokens, in index order, are exactly the stack. */
  ghost predicate Linked(ts: seq<Token>, stack: seq<nat>) {
    && (forall i :: 0 <= i < |stack| ==> stack[i] < |ts| && ts[stack[i]].end == -1 && Container(ts[stack[i]]))
    && (forall i, j :: 0 <= i < j < |stack| ==> stack[i] < stack[j])
    && (forall x :: 0 <= x < |ts| && ts[x].end == -1 ==> x in stack)
  }

  /** Token x lies in the text before pos, and its brackets match its type. */
  ghost predicate Placed(js: string, pos: nat, t: Token) {
    && 0 <= t.start < pos <= |js|
    && (t.end == -1 || t.start <= t.end <= pos)
    && (Container(t) ==>
          && js[t.start] == (if t.kind == Object then '{' else '[')
          && (t.end != -1 ==> t.start < t.end && js[t.end - 1] == (if t.kind == Object then '}' else ']')))
  }

  /** Of two tokens the later starts later; if the earlier is closed, the later lies behind or inside it. */
  ghost predicate Nested(a: Token, b: Token) {
    && a.start < b.start
    && (a.end != -1 ==> a.end <= b.start || (b.end != -1 && b.end <= a.end))
  }

  ghost predicate WellPlaced(js: string, p: Parser) {
    && Linked(p.tokens, p.stack)
    && -1 <= p.super < |p.tokens|
    && |p.tokens| <= p.pos <= |js|
    && (forall x :: 0 <= x < |p.tokens| ==> Placed(js, p.pos, p.tokens[x]))
    && (forall x, y :: 0 <= x < y < |p.tokens| ==> Nested(p.tokens[x], p.tokens[y]))
  }

  lemma BumpKeeps(ts: seq<Token>, super: int)
    ensures forall x :: 0 <= x < |ts| ==>
      var t, b := ts[x], Bump(ts, super)[x];
      b.kind == t.kind && b.start == t.start && b.end == t.end
  {
  }

  lemma EmitKeeps(js: string, p: Parser, kind: Type, start: nat, end: nat, pos: nat)
    requires WellPlaced(js, p) && (kind == Text || kind == Primitive)
    requires p.pos <= start <= end <= pos <= |js| && start < pos && p.pos < pos
    ensures WellPlaced(js, Emit(p, kind, start, end, pos))
  {
    BumpKeeps(p.tokens, p.super);
    var q := Emit(p, kind, start, end, pos);
    var n := |p.tokens|;
    forall x | 0 <= x < n ensures Placed(js, pos, q.tokens[x]) { assert Placed(js, p.pos, p.tokens[x]); }
    forall x, y | 0 <= x < y < |q.tokens| ensures Nested(q.tokens[x], q.tokens[y]) {
      assert Placed(js, p.pos, p.tokens[x]);
      if y < n { assert Nested(p.tokens[x], p.tokens[y]); }
    }
    assert Linked(q.tokens, q.stack);
  }

  lemma OpenKeeps(js: string, p: Parser, kind: Type)
    requires WellPlaced(js, p) && p.pos < |js| && (kind == Object || kind == Array)
    requires js[p.pos] == if kind == Object then '{' else '['
    ensures WellPlaced(js, Open(p, kind))
  {
    BumpKeeps(p.tokens, p.super);
    var q := Open(p, kind);
    var n := |p.tokens|;
    forall x | 0 <= x < n ensures Placed(js, q.pos, q.tokens[x]) { assert Placed(js, p.pos, p.tokens[x]); }
    forall x, y | 0 <= x < y < |q.tokens| ensures Nested(q.tokens[x], q.tokens[y]) {
      assert Placed(js, p.pos, p.tokens[x]);
      if y < n { assert Nested(p.tokens[x], p.tokens[y]); }
    }
    OpenLinks(p.tokens, q.tokens, p.stack);
  }

  lemma OpenLinks(ts: seq<Token>, us: seq<Token>, stack: seq<nat>)
    requires Linked(ts, stack) && |us| == |ts| + 1 && us[|ts|].end == -1 && Container(us[|ts|])
    requires forall x :: 0 <= x < |ts| ==> us[x].end == ts[x].end && us[x].kind == ts[x].kind
    ensures Linked(us, stack + [|ts|])
  {
    var r := stack + [|ts|];
    forall x | 0 <= x < |us| && us[x].end == -1 ensures x in r {
      if x < |ts| { assert x in stack; } else { assert r[|stack|] == x; }
    }
  }

  lemma CloseKeeps(js: string, p: Parser, kind: Type)
    requires WellPlaced(js, p) && p.pos < |js| && (kind == Object || kind == Array)
    requires js[p.pos] == if kind == Object then '}' else ']'
    ensures Close(p, kind).Go? ==> WellPlaced(js, Close(p, kind).p)
  {
    var top := Top(p.stack);
    if Close(p, kind).Go? {
      var q := Close(p, kind).p;
      assert top == p.stack[|p.stack| - 1];
      forall x | 0 <= x < |p.tokens| ensures Placed(js, q.pos, q.tokens[x]) { assert Placed(js, p.pos, p.tokens[x]); }
      forall y | top < y < |p.tokens| ensures p.tokens[y].end != -1 { assert y !in p.stack; }
      forall x, y | 0 <= x < y < |p.tokens| ensures Nested(q.tokens[x], q.tokens[y]) {
        assert Nested(p.tokens[x], p.tokens[y]) && Placed(js, p.pos, p.tokens[y]) && Placed(js, p.pos, p.tokens[x]);
      }
      assert Linked(q.tokens, q.stack) by {
        forall x | 0 <= x < |q.tokens| && q.tokens[x].end == -1 ensures x in q.stack {
          assert x in p.stack;
        }
      }
    }
  }

  lemma StepKeeps(js: string, p: Parser, room: nat)
    requires WellPlaced(js, p) && !AtEnd(js, p.pos)
    ensures Step(js, p, room).Go? ==> WellPlaced(js, Step(js, p, room).p)
  {
    hide StringEnd, PrimitiveEnd, Emit, Open, Close, WellPlaced;
    var c := js[p.pos];
    SuperInRange(js, p);
    if c == '{' || c == '[' { OpenKeeps(js, p, if c == '{' then Object else Array); }
    else if c == '}' || c == ']' { CloseKeeps(js, p, if c == '}' then Object else Array); }
    else if c == '"' {
      var e := StringEnd(js, p.pos + 1);
      if e.Closed? { EmitKeeps(js, p, Text, p.pos + 1, e.at, e.at + 1); }
    } else if Blank(c) { MovedOnKeeps(js, p, p.super); }
    else if c == ':' { MovedOnKeeps(js, p, |p.tokens| - 1); }
    else if c == ',' { MovedOnKeeps(js, p, Top(p.stack)); MovedOnKeeps(js, p, p.super); }
    else {
      var e := PrimitiveEnd(js, p.pos);
      if e.Ends? && e.at > p.pos { EmitKeeps(js, p, Primitive, p.pos, e.at, e.at); }
    }
  }

  lemma SuperInRange(js: string, p: Parser)
    requires WellPlaced(js, p)
    ensures -1 <= Top(p.stack) < |p.tokens| && -1 <= p.super < |p.tokens|
  {
  }

  lemma MovedOnKeeps(js: string, p: Parser, super: int)
    requires WellPlaced(js, p) && p.pos < |js| && -1 <= super < |p.tokens|
    ensures WellPlaced(js, p.(pos := p.pos + 1, super := super))
  {
    forall x | 0 <= x < |p.tokens| ensures Placed(js, p.pos + 1, p.tokens[x]) { assert Placed(js, p.pos, p.tokens[x]); }
  }

  lemma {:induction false} RunKeeps(js: string, p: Parser, room: nat)
    requires WellPlaced(js, p)
    ensures WellPlaced(js, Run(js, p, room).0)
    ensures Run(js, p, room).1.Done? ==> Run(js, p, room).0.stack == []
    ensures Run(js, p, room).1.Done? ==> Run(js, p, room).1.count == |Run(js, p, room).0.tokens|
    decreases |js| - p.pos
  {
    hide WellPlaced, Step;
    if AtEnd(js, p.pos) {
    } else {
      StepKeeps(js, p, room);
      if Step(js, p, room).Go? { RunKeeps(js, Step(js, p, room).p, room); }
    }
  }

  /**
   * A successful parse yields a forest: every token is closed and lies in the text, starts strictly
   * increase, any two token ranges are nested or disjoint, and every bracket is matched by type.
   */
  lemma ParseYieldsForest(js: string, room: nat)
    requires Run(js, INITIAL, room).1.Done?
    ensures var ts := Run(js, INITIAL, room).0.tokens;
      && Run(js, INITIAL, room).1.count == |ts| <= |js|
      && (forall x :: 0 <= x < |ts| ==> 0 <= ts[x].start <= ts[x].end <= |js|)
      && (forall x :: 0 <= x < |ts| && ts[x].kind == Object ==>
            ts[x].start < ts[x].end && js[ts[x].start] == '{' && js[ts[x].end - 1] == '}')
      && (forall x :: 0 <= x < |ts| && ts[x].kind == Array ==>
            ts[x].start < ts[x].end && js[ts[x].start] == '[' && js[ts[x].end - 1] == ']')
      && (forall x, y :: 0 <= x < y < |ts| ==>
            && ts[x].start < ts[y].start
            && (ts[x].end <= ts[y].start || ts[y].end <= ts[x].end))
  {
    RunKeeps(js, INITIAL, room);
    var p := Run(js, INITIAL, room).0;
    forall x | 0 <= x < |p.tokens| ensures p.tokens[x].end != -1 && Placed(js, p.pos, p.tokens[x]) {
      assert x !in p.stack;
    }
    forall x, y | 0 <= x < y < |p.tokens| ensures Nested(p.tokens[x], p.tokens[y]) {}
  }

  /** With as many tokens as characters the parser never runs out of tokens. */
  lemma {:induction false} NeverOutOfTokens(js: string, p: Parser, room: nat)
    requires WellPlaced(js, p) && room >= |js|
    ensures Run(js, p, room).1 != Failed(NoMemory)
    decreases |js| - p.pos
  {
    if AtEnd(js, p.pos) {
    } else {
      StepKeeps(js, p, room);
      EnoughHere(js, p, room);
      if Step(js, p, room).Go? { NeverOutOfTokens(js, Step(js, p, room).p, room); }
    }
  }

  lemma EnoughHere(js: string, p: Parser, room: nat)
    requires WellPlaced(js, p) && room >= |js| && !AtEnd(js, p.pos)
    ensures Step(js, p, room) != Stop(NoMemory)
  {
  }

  // ----- sizes -----

  function TotalSize(ts: seq<Token>): nat {
    if ts == [] then 0 else TotalSize(ts[..|ts| - 1]) + ts[|ts| - 1].size
  }

  lemma {:induction false} BumpCounts(ts: seq<Token>, super: int)
    ensures TotalSize(Bump(ts, super)) == TotalSize(ts) + if 0 <= super < |ts| then 1 else 0
  {
    if 0 <= super < |ts| {
      var n := |ts| - 1;
      if super == n { assert Bump(ts, super)[..n] == ts[..n]; }
      else { assert Bump(ts, super)[..n] == Bump(ts[..n], super); BumpCounts(ts[..n], super); }
    }
  }

  lemma {:induction false} SameSizes(ts: seq<Token>, us: seq<Token>)
    requires |ts| == |us| && forall x :: 0 <= x < |ts| ==> ts[x].size == us[x].size
    ensures TotalSize(ts) == TotalSize(us)
  {
    if ts == [] {
    } else {
      SameSizes(ts[..|ts| - 1], us[..|us| - 1]);
    }
  }

  ghost predicate Conserved(p: Parser) {
    TotalSize(p.tokens) + p.orphans == |p.tokens|
  }

  /** After every character: the sizes of all tokens and the tokens made without a super add up. */
  lemma StepConserves(js: string, p: Parser, room: nat)
    requires WellPlaced(js, p) && !AtEnd(js, p.pos) && Conserved(p)
    ensures Step(js, p, room).Go? ==> Conserved(Step(js, p, room).p)
  {
    hide StringEnd, PrimitiveEnd, TotalSize, Linked, Placed, Nested;
    var r := Step(js, p, room);
    if r.Go? {
      var n := |p.tokens|;
      BumpCounts(p.tokens, p.super);
      if |r.p.tokens| == n + 1 {
        AppendCounts(Bump(p.tokens, p.super), r.p.tokens[n]);
        assert r.p.tokens == Bump(p.tokens, p.super) + [r.p.tokens[n]];
      } else {
        SameSizes(p.tokens, r.p.tokens);
      }
    }
  }

  lemma AppendCounts(ts: seq<Token>, t: Token)
    ensures TotalSize(ts + [t]) == TotalSize(ts) + t.size
  {
    assert (ts + [t])[..|ts|] == ts;
  }

  lemma {:induction false} RunConserves(js: string, p: Parser, room: nat)
    requires WellPlaced(js, p) && Conserved(p)
    ensures Conserved(Run(js, p, room).0)
    decreases |js| - p.pos
  {
    hide Step, WellPlaced, Conserved;
    if AtEnd(js, p.pos) {
    } else {
      StepKeeps(js, p, room);
      StepConserves(js, p, room);
      if Step(js, p, room).Go? { RunConserves(js, Step(js, p, room).p, room); }
    }
  }

  // ----- resuming -----

  /**
   * Resumption: a parse that ran out of tokens and goes on from where it stopped with more room
   * ends exactly as the parse that had this room from the beginning.
   */
  lemma {:induction false} Resume(js: string, p: Parser, room: nat, more: nat)
    requires room <= more && Run(js, p, room).1 == Failed(NoMemory)
    ensures Run(js, Run(js, p, room).0, more) == Run(js, p, more)
    decreases |js| - p.pos
  {
    hide Emit, Open, Close;
    if AtEnd(js, p.pos) {
    } else {
      if Step(js, p, room).Go? {
        assert Step(js, p, more) == Step(js, p, room);
        Resume(js, Step(js, p, room).p, room, more);
      }
    }
  }

  // ----- counting without tokens -----

  datatype CountOutcome = CountGo(pos: nat, count: nat) | CountStop(error: Error)

  /** The same character when no token array is given. */
  function CountStep(js: string, pos: nat, count: nat): (r: CountOutcome)
    requires !AtEnd(js, pos)
    ensures r.CountGo? ==> pos < r.pos <= |js|
  {
    var c := js[pos];
    if c == '{' || c == '[' then CountGo(pos + 1, count + 1)
    else if c == '}' || c == ']' || Blank(c) || c == ':' || c == ',' then CountGo(pos + 1, count)
    else if c == '"' then
      match StringEnd(js, pos + 1)
      case Closed(q) => CountGo(q + 1, count + 1)
      case BadEscape => CountStop(Invalid)
      case Unclosed => CountStop(Partial)
    else
      match PrimitiveEnd(js, pos)
      case Ends(q) => CountGo(q, count + 1)
      case BadCharacter => CountStop(Invalid)
  }

  function CountRun(js: string, pos: nat, count: nat): Result
    decreases |js| - pos
  {
    if AtEnd(js, pos) then Done(count)
    else
      match CountStep(js, pos, count)
      case CountGo(p, n) => CountRun(js, p, n)
      case CountStop(e) => Failed(e)
  }

  lemma StepCounts(js: string, p: Parser, room: nat)
    requires !AtEnd(js, p.pos) && Step(js, p, room).Go?
    ensures var q := Step(js, p, room).p; CountStep(js, p.pos, |p.tokens|) == CountGo(q.pos, |q.tokens|)
  {
    hide StringEnd, PrimitiveEnd;
  }

  /** If a parse succeeds, the counting run beforehand predicts how many tokens it takes. */
  lemma {:induction false} CountPredicts(js: string, p: Parser, room: nat)
    requires Run(js, p, room).1.Done?
    ensures CountRun(js, p.pos, |p.tokens|) == Run(js, p, room).1
    ensures Run(js, p, room).1 == Done(|Run(js, p, room).0.tokens|)
    decreases |js| - p.pos
  {
    hide Step, CountStep;
    if AtEnd(js, p.pos) {
    } else {
      StepCounts(js, p, room);
      CountPredicts(js, Step(js, p, room).p, room);
    }
  }

  // ----- what a string or a primitive is -----

  /** How many backslashes stand directly before place p, none of them before i. */
  function Backslashes(js: string, i: nat, p: nat): nat
    requires i <= p <= |js|
  {
    if p == i || js[p - 1] != '\\' then 0 else Backslashes(js, i, p - 1) + 1
  }

  predicate Escaped(js: string, i: nat, p: nat)
    requires i <= p <= |js|
  {
    Backslashes(js, i, p) % 2 == 1
  }

  /** In a string that starts at i, place p is no end: a quote is escaped, and only certain characters are. */
  predicate Inside(js: string, i: nat, p: nat)
    requires i <= p < |js|
  {
    && js[p] != '\0'
    && (js[p] == '"' ==> Escaped(js, i, p))
    && (Escaped(js, i, p) ==> js[p] in "\"/\\bfrntu")
  }

  lemma {:induction false} HexInside(js: string, i: nat, j: nat, n: nat)
    requires i < j <= |js| && js[j - 1] != '\\' && HexEnd(js, j, n).0
    ensures var e := HexEnd(js, j, n).1;
      j <= e <= |js| && js[e - 1] != '\\' && forall p :: j <= p < e ==> Inside(js, i, p)
    decreases n
  {
    if n == 0 || j >= |js| || js[j] == '\0' {
    } else {
      HexInside(js, i, j + 1, n - 1);
    }
  }

  /** Where the scan closes a string, the first quote stands that is not escaped. */
  lemma {:induction false} ClosedAtQuote(js: string, i: nat, j: nat)
    requires i <= j <= |js| && !Escaped(js, i, j) && StringEnd(js, j).Closed?
    ensures var q := StringEnd(js, j).at;
      j <= q < |js| && js[q] == '"' && !Escaped(js, i, q) && forall p :: j <= p < q ==> Inside(js, i, p)
    decreases |js| - j
  {
    if js[j] == '"' {
    } else if js[j] == '\\' && j + 1 < |js| {
      assert Escaped(js, i, j + 1) && !Escaped(js, i, j + 2);
      if js[j + 1] == 'u' {
        HexInside(js, i, j + 2, 4);
        ClosedAtQuote(js, i, HexEnd(js, j + 2, 4).1);
      } else {
        ClosedAtQuote(js, i, j + 2);
      }
    } else {
      ClosedAtQuote(js, i, j + 1);
    }
  }

  /** A primitive is all printable, and goes on to the next delimiter. */
  lemma {:induction false} PrimitiveIsPlain(js: string, i: nat)
    requires i <= |js| && PrimitiveEnd(js, i).Ends?
    ensures var q := PrimitiveEnd(js, i).at;
      && (forall p :: i <= p < q ==> Printable(js[p]) && !Delimiter(js[p]))
      && (q == |js| || js[q] == '\0' || Delimiter(js[q]))
    decreases |js| - i
  {
    if i == |js| || js[i] == '\0' || Delimiter(js[i]) {
    } else {
      PrimitiveIsPlain(js, i + 1);
    }
  }

  /** A string token runs from one quote to the next that is not escaped, a primitive up to a delimiter. */
  ghost predicate Spelled(js: string, t: Token) {
    && (t.kind == Text ==>
          && 0 < t.start <= t.end < |js| && js[t.start - 1] == '"' && js[t.end] == '"' && !Escaped(js, t.start, t.end)
          && forall p :: t.start <= p < t.end ==> Inside(js, t.start, p))
    && (t.kind == Primitive ==>
          && 0 <= t.start < t.end <= |js| && (t.end == |js| || js[t.end] == '\0' || Delimiter(js[t.end]))
          && forall p :: t.start <= p < t.end ==> Printable(js[p]) && !Delimiter(js[p]))
  }

  ghost predicate AllSpelled(js: string, ts: seq<Token>) {
    forall x :: 0 <= x < |ts| ==> Spelled(js, ts[x])
  }

  lemma StepSpells(js: string, p: Parser, room: nat)
    requires !AtEnd(js, p.pos) && AllSpelled(js, p.tokens)
    ensures Step(js, p, room).Go? ==> AllSpelled(js, Step(js, p, room).p.tokens)
  {
    hide StringEnd, PrimitiveEnd, Inside, Escaped, Spelled;
    var r := Step(js, p, room);
    if r.Go? {
      forall x | 0 <= x < |r.p.tokens| ensures Spelled(js, r.p.tokens[x]) {
        if x < |p.tokens| { SpelledAlike(js, p.tokens[x], r.p.tokens[x]); } else { NewSpells(js, p, room); }
      }
    }
  }

  lemma QuoteSpells(js: string, i: nat)
    requires 0 < i <= |js| && js[i - 1] == '"'
    ensures StringEnd(js, i).Closed? ==> Spelled(js, Token(Text, i, StringEnd(js, i).at, 0))
  {
    hide Inside;
    if StringEnd(js, i).Closed? { ClosedAtQuote(js, i, i); }
  }

  lemma PrimitiveSpells(js: string, i: nat)
    requires i < |js| && js[i] != '\0' && !Delimiter(js[i])
    ensures PrimitiveEnd(js, i).Ends? ==> Spelled(js, Token(Primitive, i, PrimitiveEnd(js, i).at, 0))
  {
    if PrimitiveEnd(js, i).Ends? { PrimitiveIsPlain(js, i); }
  }

  lemma SpelledAlike(js: string, t: Token, r: Token)
    requires Spelled(js, t) && r.kind == t.kind && (Container(t) || (r.start == t.start && r.end == t.end))
    ensures Spelled(js, r)
  {
  }

  lemma NewSpells(js: string, p: Parser, room: nat)
    requires !AtEnd(js, p.pos) && Step(js, p, room).Go? && |Step(js, p, room).p.tokens| > |p.tokens|
    ensures Spelled(js, Step(js, p, room).p.tokens[|p.tokens|])
  {
    hide StringEnd, PrimitiveEnd, Inside, Escaped, Spelled;
    var c := js[p.pos];
    if c == '"' {
      QuoteSpells(js, p.pos + 1);
    } else if c == '{' || c == '[' {
      ContainerSpells(js, Step(js, p, room).p.tokens[|p.tokens|]);
    } else {
      PrimitiveSpells(js, p.pos);
    }
  }

  lemma ContainerSpells(js: string, t: Token)
    requires Container(t)
    ensures Spelled(js, t)
  {
  }

  /** Every string and every primitive among the tokens of a parse is spelled as it should be. */
  lemma {:induction false} RunSpells(js: string, p: Parser, room: nat)
    requires AllSpelled(js, p.tokens)
    ensures AllSpelled(js, Run(js, p, room).0.tokens)
    decreases |js| - p.pos
  {
    hide Step, AllSpelled;
    if AtEnd(js, p.pos) {
    } else {
      StepSpells(js, p, room);
      if Step(js, p, room).Go? { RunSpells(js, Step(js, p, room).p, room); }
    }
  }
}

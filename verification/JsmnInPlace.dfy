/**
 * The tokenizer as it is in include/jsmn.h: a token array filled in place, and backward scans over
 * it where Jsmn has a stack. Every method is proved to compute what Jsmn specifies.
 */
module JsmnInPlace {
  import opened Jsmn

  datatype Code = Ok | Error(error: Jsmn.Error)

  /** `jsmn_parser` */
  class Cursor {
    var pos: nat
    var toknext: nat
    var toksuper: int

    constructor ()
      ensures pos == 0 && toknext == 0 && toksuper == -1
    {
      pos, toknext, toksuper := 0, 0, -1;
    }

    /** The cursor and the token array stand for the parser state p of a text js. */
    ghost predicate Stands(js: string, tokens: array<Token>, p: Parser)
      reads this, tokens
    {
      && pos == p.pos && toksuper == p.super
      && toknext == |p.tokens| <= tokens.Length
      && tokens[..toknext] == p.tokens
      && WellPlaced(js, p)
    }
  }

  /** Allocate and fill the next token; false if there is none left. */
  method AllocToken(c: Cursor, tokens: array<Token>, t: Token) returns (ok: bool)
    requires c.toknext <= tokens.Length
    modifies c`toknext, tokens
    ensures ok == (old(c.toknext) < tokens.Length)
    ensures c.toknext == if ok then old(c.toknext) + 1 else old(c.toknext)
    ensures c.toknext <= tokens.Length
    ensures tokens[..c.toknext] == old(tokens[..c.toknext]) + if ok then [t] else []
  {
    if c.toknext >= tokens.Length {
      return false;
    }
    tokens[c.toknext] := t;
    c.toknext := c.toknext + 1;
    return true;
  }

  method BumpSuper(c: Cursor, tokens: array<Token>)
    requires c.toknext <= tokens.Length && -1 <= c.toksuper < c.toknext
    modifies tokens
    ensures tokens[..c.toknext] == Bump(old(tokens[..c.toknext]), c.toksuper)
  {
    if c.toksuper != -1 {
      ghost var ts := tokens[..c.toknext];
      tokens[c.toksuper] := tokens[c.toksuper].(size := tokens[c.toksuper].size + 1);
      assert tokens[..c.toknext] == Bump(ts, c.toksuper);
    }
  }

  // ----- primitives and strings -----

  /** Move to the end of the primitive at the cursor, or stay and report a bad character. */
  method ScanPrimitive(c: Cursor, js: string) returns (r: Code)
    requires c.pos < |js|
    modifies c`pos
    ensures match PrimitiveEnd(js, old(c.pos))
      case BadCharacter => r == Error(Invalid) && c.pos == old(c.pos)
      case Ends(q) => r == Ok && c.pos == q
  {
    var start := c.pos;
    while c.pos < |js| && js[c.pos] != '\0' && !Delimiter(js[c.pos])
      invariant start <= c.pos <= |js|
      invariant PrimitiveEnd(js, c.pos) == PrimitiveEnd(js, start)
    {
      if !Printable(js[c.pos]) {
        c.pos := start;
        return Error(Invalid);
      }
      c.pos := c.pos + 1;
    }
    return Ok;
  }

  method ParsePrimitive(c: Cursor, js: string, tokens: array<Token>, ghost p: Parser) returns (r: Code)
    requires c.Stands(js, tokens, p) && !AtEnd(js, c.pos)
    modifies c`pos, c`toknext, tokens
    ensures match PrimitiveEnd(js, p.pos)
      case BadCharacter => r == Error(Invalid)
      case Ends(q) =>
        if |p.tokens| >= tokens.Length then r == Error(NoMemory)
        else r == Ok && c.pos == q && c.toknext == |p.tokens| + 1
             && tokens[..c.toknext] == p.tokens + [Token(Primitive, p.pos, q, 0)]
    ensures r.Error? ==> c.Stands(js, tokens, p)
  {
    var start := c.pos;
    r := ScanPrimitive(c, js);
    if r == Ok {
      var ok := AllocToken(c, tokens, Token(Primitive, start, c.pos, 0));
      if !ok {
        c.pos := start;
        assert tokens[..c.toknext] == p.tokens;
        return Error(NoMemory);
      }
    }
  }

  /** Step over up to four hexadecimal digits. */
  method SkipHex(c: Cursor, js: string) returns (ok: bool)
    requires c.pos <= |js|
    modifies c`pos
    ensures (ok, if ok then c.pos else HexEnd(js, old(c.pos), 4).1) == HexEnd(js, old(c.pos), 4)
    ensures ok ==> old(c.pos) <= c.pos <= |js|
  {
    var i := 0;
    while i < 4 && c.pos < |js| && js[c.pos] != '\0'
      invariant 0 <= i <= 4 && old(c.pos) <= c.pos <= |js|
      invariant HexEnd(js, c.pos, 4 - i) == HexEnd(js, old(c.pos), 4)
    {
      if !Hex(js[c.pos]) {
        return false;
      }
      c.pos := c.pos + 1;
      i := i + 1;
    }
    return true;
  }

  /** Move from the opening quote to the closing one, or stay and report what is wrong. */
  method ScanString(c: Cursor, js: string) returns (r: Code)
    requires c.pos < |js|
    modifies c`pos
    ensures match StringEnd(js, old(c.pos) + 1)
      case BadEscape => r == Error(Invalid) && c.pos == old(c.pos)
      case Unclosed => r == Error(Partial) && c.pos == old(c.pos)
      case Closed(q) => r == Ok && c.pos == q
  {
    var start := c.pos;
    c.pos := c.pos + 1;
    while c.pos < |js| && js[c.pos] != '\0'
      invariant start < c.pos <= |js|
      invariant StringEnd(js, c.pos) == StringEnd(js, start + 1)
      decreases |js| - c.pos
    {
      if js[c.pos] == '"' {
        return Ok;
      }
      if js[c.pos] == '\\' && c.pos + 1 < |js| {
        c.pos := c.pos + 1;
        if js[c.pos] in "\"/\\bfrnt" {
          c.pos := c.pos + 1;
        } else if js[c.pos] == 'u' {
          c.pos := c.pos + 1;
          var ok := SkipHex(c, js);
          if !ok {
            c.pos := start;
            return Error(Invalid);
          }
        } else {
          c.pos := start;
          return Error(Invalid);
        }
      } else {
        c.pos := c.pos + 1;
      }
    }
    c.pos := start;
    return Error(Partial);
  }

  method ParseString(c: Cursor, js: string, tokens: array<Token>, ghost p: Parser) returns (r: Code)
    requires c.Stands(js, tokens, p) && !AtEnd(js, c.pos)
    modifies c`pos, c`toknext, tokens
    ensures match StringEnd(js, p.pos + 1)
      case BadEscape => r == Error(Invalid)
      case Unclosed => r == Error(Partial)
      case Closed(q) =>
        if |p.tokens| >= tokens.Length then r == Error(NoMemory)
        else r == Ok && c.pos == q && c.toknext == |p.tokens| + 1
             && tokens[..c.toknext] == p.tokens + [Token(Text, p.pos + 1, q, 0)]
    ensures r.Error? ==> c.Stands(js, tokens, p)
  {
    var start := c.pos;
    r := ScanString(c, js);
    if r == Ok {
      var ok := AllocToken(c, tokens, Token(Text, start + 1, c.pos, 0));
      if !ok {
        c.pos := start;
        assert tokens[..c.toknext] == p.tokens;
        return Error(NoMemory);
      }
    }
  }

  // ----- backward scans -----

  /** The last open token, found from the end of the array: it is the top of the stack. */
  method LastOpen(tokens: array<Token>, n: nat, ghost stack: seq<nat>) returns (i: int)
    requires n <= tokens.Length && Linked(tokens[..n], stack)
    requires forall x :: 0 <= x < n ==> tokens[x].start != -1
    ensures i == Top(stack) && -1 <= i < n
  {
    i := n - 1;
    while i >= 0
      invariant -1 <= i < n
      invariant forall x :: i < x < n ==> tokens[..n][x].end != -1
    {
      if tokens[i].start != -1 && tokens[i].end == -1 {
        assert tokens[..n][i].end == -1;
        assert i in stack;
        return;
      }
      i := i - 1;
    }
  }

  /** The same scan, looking at containers only, as a comma does it. */
  method LastOpenContainer(tokens: array<Token>, n: nat, ghost stack: seq<nat>) returns (i: int)
    requires n <= tokens.Length && Linked(tokens[..n], stack)
    requires forall x :: 0 <= x < n ==> tokens[x].start != -1
    ensures i == Top(stack) && -1 <= i < n
  {
    i := n - 1;
    while i >= 0
      invariant -1 <= i < n
      invariant forall x :: i < x < n ==> tokens[..n][x].end != -1
    {
      assert tokens[..n][i] == tokens[i];
      if tokens[i].end == -1 { OpenIsContainer(tokens[..n], stack, i); }
      if Container(tokens[i]) {
        if tokens[i].start != -1 && tokens[i].end == -1 {
          assert tokens[..n][i].end == -1;
          assert i in stack;
          return;
        }
      }
      i := i - 1;
    }
  }

  lemma OpenIsContainer(ts: seq<Token>, stack: seq<nat>, i: nat)
    requires Linked(ts, stack) && i < |ts| && ts[i].end == -1
    ensures Container(ts[i])
  {
    assert i in stack;
  }

  // ----- brackets -----

  method OpenBracket(c: Cursor, js: string, tokens: array<Token>, kind: Type, ghost p: Parser) returns (r: Code)
    requires c.Stands(js, tokens, p) && c.pos < |js| && (kind == Object || kind == Array)
    requires js[c.pos] == if kind == Object then '{' else '['
    modifies c, tokens
    ensures if |p.tokens| >= tokens.Length then r == Error(NoMemory) && c.Stands(js, tokens, p)
            else r == Ok && c.Stands(js, tokens, Open(p, kind))
  {
    hide Linked, Placed, Nested;
    var ok := AllocToken(c, tokens, Token(kind, c.pos, -1, 0));
    if !ok {
      assert tokens[..c.toknext] == p.tokens;
      return Error(NoMemory);
    }
    BumpSuper(c, tokens);
    BumpBefore(p.tokens, p.super, Token(kind, p.pos, -1, 0));
    c.toksuper := c.toknext - 1;
    c.pos := c.pos + 1;
    OpenKeeps(js, p, kind);
    return Ok;
  }

  lemma BumpBefore(ts: seq<Token>, super: int, t: Token)
    requires -1 <= super < |ts|
    ensures Bump(ts + [t], super) == Bump(ts, super) + [t]
  {
  }

  method CloseBracket(c: Cursor, js: string, tokens: array<Token>, kind: Type, ghost p: Parser) returns (r: Code)
    requires c.Stands(js, tokens, p) && c.pos < |js| && (kind == Object || kind == Array)
    requires js[c.pos] == if kind == Object then '}' else ']'
    modifies c, tokens
    ensures match Close(p, kind)
      case Stop(e) => r == Error(e) && c.Stands(js, tokens, p)
      case Go(q) => r == Ok && c.Stands(js, tokens, q)
  {
    hide Linked, WellPlaced, Close;
    Starts(js, p);
    CloseMeans(js, p, kind);
    var i := LastOpen(tokens, c.toknext, p.stack);
    if i == -1 {
      return Error(Invalid);
    }
    assert tokens[i] == p.tokens[i];
    if tokens[i].kind != kind {
      return Error(Invalid);
    }
    ghost var q := Close(p, kind).p;
    tokens[i] := tokens[i].(end := c.pos + 1);
    assert tokens[..c.toknext] == q.tokens;
    assert tokens[..i + 1] == q.tokens[..i + 1];
    c.toksuper := LastOpen(tokens, i + 1, q.stack);
    c.pos := c.pos + 1;
    return Ok;
  }

  /** A closing bracket, in terms of the top of the stack. */
  lemma CloseMeans(js: string, p: Parser, kind: Type)
    requires WellPlaced(js, p) && p.pos < |js| && (kind == Object || kind == Array)
    requires js[p.pos] == if kind == Object then '}' else ']'
    ensures -1 <= Top(p.stack) < |p.tokens|
    ensures var i := Top(p.stack);
      if i == -1 || p.tokens[i].kind != kind then Close(p, kind) == Stop(Invalid)
      else
        var r := Close(p, kind);
        && r.Go? && WellPlaced(js, r.p)
        && r.p.tokens == p.tokens[i := p.tokens[i].(end := p.pos + 1)] && r.p.pos == p.pos + 1
        && r.p.super == Top(r.p.stack) && Linked(r.p.tokens[..i + 1], r.p.stack)
        && forall x :: 0 <= x < |p.tokens| ==> r.p.tokens[x].start != -1
  {
    hide Linked, WellPlaced;
    SuperInRange(js, p);
    Starts(js, p);
    CloseKeeps(js, p, kind);
    if Close(p, kind).Go? {
      Starts(js, Close(p, kind).p);
      Increasing(p.tokens, p.stack);
      StillLinked(Close(p, kind).p.tokens, p.stack, Top(p.stack));
    }
  }

  /** Below a token that has just been closed, the open ones are what is left of the stack. */
  lemma StillLinked(ts: seq<Token>, stack: seq<nat>, i: nat)
    requires stack != [] && i == stack[|stack| - 1] < |ts| && Linked(ts, stack[..|stack| - 1])
    requires forall x, y :: 0 <= x < y < |stack| ==> stack[x] < stack[y]
    ensures Linked(ts[..i + 1], stack[..|stack| - 1])
  {
    var rest := stack[..|stack| - 1];
    forall x | 0 <= x < i + 1 && ts[..i + 1][x].end == -1 ensures x in rest { assert ts[x].end == -1; }
  }

  lemma Increasing(ts: seq<Token>, stack: seq<nat>)
    requires Linked(ts, stack)
    ensures forall x, y :: 0 <= x < y < |stack| ==> stack[x] < stack[y]
  {
  }

  lemma Starts(js: string, p: Parser)
    requires WellPlaced(js, p)
    ensures Linked(p.tokens, p.stack)
    ensures forall x :: 0 <= x < |p.tokens| ==> p.tokens[x].start != -1
    ensures -1 <= p.super < |p.tokens|
  {
    forall x | 0 <= x < |p.tokens| ensures p.tokens[x].start != -1 { assert Placed(js, p.pos, p.tokens[x]); }
  }

  // ----- the main loop -----

  /** `,` goes back to the enclosing container. */
  method Comma(c: Cursor, js: string, tokens: array<Token>, ghost p: Parser)
    requires c.Stands(js, tokens, p) && !AtEnd(js, c.pos) && js[c.pos] == ','
    modifies c
    ensures Step(js, p, tokens.Length).Go? && c.Stands(js, tokens, Step(js, p, tokens.Length).p)
  {
    hide Linked, Placed, Nested;
    StepKeeps(js, p, tokens.Length);
    Starts(js, p);
    if c.toksuper != -1 {
      assert tokens[c.toksuper] == p.tokens[p.super];
      if tokens[c.toksuper].kind != Array && tokens[c.toksuper].kind != Object {
        assert forall x :: 0 <= x < c.toknext ==> tokens[x] == p.tokens[x];
        var i := LastOpenContainer(tokens, c.toknext, p.stack);
        if i >= 0 {
          c.toksuper := i;
        }
      }
    }
    c.pos := c.pos + 1;
  }

  /** One round of the main loop. */
  method Round(c: Cursor, js: string, tokens: array<Token>, ghost p: Parser) returns (r: Code, made: nat)
    requires c.Stands(js, tokens, p) && !AtEnd(js, c.pos)
    modifies c, tokens
    ensures match Step(js, p, tokens.Length)
      case Stop(e) => r == Error(e) && c.Stands(js, tokens, p)
      case Go(q) => r == Ok && c.Stands(js, tokens, q) && |q.tokens| == |p.tokens| + made
  {
    hide Linked, Placed, Nested, StringEnd, PrimitiveEnd;
    StepKeeps(js, p, tokens.Length);
    SuperInRange(js, p);
    r, made := Ok, 0;
    match js[c.pos] {
      case '{' =>
        made := 1;
        r := OpenBracket(c, js, tokens, Object, p);
      case '[' =>
        made := 1;
        r := OpenBracket(c, js, tokens, Array, p);
      case '}' => r := CloseBracket(c, js, tokens, Object, p);
      case ']' => r := CloseBracket(c, js, tokens, Array, p);
      case '"' =>
        r := ParseString(c, js, tokens, p);
        if r == Ok {
          BumpSuper(c, tokens);
          BumpBefore(p.tokens, p.super, Token(Text, p.pos + 1, c.pos, 0));
          c.pos := c.pos + 1;
          made := 1;
        }
      case '\t' => c.pos := c.pos + 1;
      case '\r' => c.pos := c.pos + 1;
      case '\n' => c.pos := c.pos + 1;
      case ' ' => c.pos := c.pos + 1;
      case ':' =>
        c.toksuper := c.toknext - 1;
        c.pos := c.pos + 1;
      case ',' => Comma(c, js, tokens, p);
      case _ =>
        r := ParsePrimitive(c, js, tokens, p);
        if r == Ok {
          BumpSuper(c, tokens);
          BumpBefore(p.tokens, p.super, Token(Primitive, p.pos, c.pos, 0));
          made := 1;
        }
    }
  }

  /** `jsmn_parse` with a token array, started fresh or resumed. */
  method Parse(c: Cursor, js: string, tokens: array<Token>, ghost p: Parser) returns (r: Result)
    requires c.Stands(js, tokens, p)
    modifies c, tokens
    ensures r == Run(js, p, tokens.Length).1
    ensures c.Stands(js, tokens, Run(js, p, tokens.Length).0)
  {
    hide Step, WellPlaced;
    ghost var q := p;
    var count := c.toknext;
    while c.pos < |js| && js[c.pos] != '\0'
      invariant c.Stands(js, tokens, q) && count == c.toknext
      invariant Run(js, q, tokens.Length) == Run(js, p, tokens.Length)
      decreases |js| - c.pos
    {
      var code, made := Round(c, js, tokens, q);
      if code.Error? {
        return Failed(code.error);
      }
      q := Step(js, q, tokens.Length).p;
      count := count + made;
    }
    Starts(js, q);
    assert forall x :: 0 <= x < c.toknext ==> tokens[x] == q.tokens[x];
    var i := LastOpen(tokens, c.toknext, q.stack);
    if i >= 0 {
      return Failed(Partial);
    }
    return Done(count);
  }

  /** `jsmn_parse` without a token array: it only counts, and checks no brackets. */
  method Count(c: Cursor, js: string) returns (r: Result)
    modifies c`pos, c`toksuper
    ensures r == CountRun(js, old(c.pos), c.toknext)
  {
    var count := c.toknext;
    while c.pos < |js| && js[c.pos] != '\0'
      invariant CountRun(js, c.pos, count) == CountRun(js, old(c.pos), c.toknext)
      decreases |js| - c.pos
    {
      match js[c.pos] {
        case '{' =>
          count := count + 1;
          c.pos := c.pos + 1;
        case '[' =>
          count := count + 1;
          c.pos := c.pos + 1;
        case '}' => c.pos := c.pos + 1;
        case ']' => c.pos := c.pos + 1;
        case '"' =>
          var code := ScanString(c, js);
          if code.Error? {
            return Failed(code.error);
          }
          count := count + 1;
          c.pos := c.pos + 1;
        case '\t' => c.pos := c.pos + 1;
        case '\r' => c.pos := c.pos + 1;
        case '\n' => c.pos := c.pos + 1;
        case ' ' => c.pos := c.pos + 1;
        case ':' =>
          c.toksuper := c.toknext - 1;
          c.pos := c.pos + 1;
        case ',' => c.pos := c.pos + 1;
        case _ =>
          var code := ScanPrimitive(c, js);
          if code.Error? {
            return Failed(code.error);
          }
          count := count + 1;
      }
    }
    return Done(count);
  }
}

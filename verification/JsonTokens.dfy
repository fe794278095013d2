/** The tokens that the tokenizer makes of an encoded message: the j-th update object is token 13 + 9j. */
module JsonTokens {
  import opened Numbers
  import opened Jsmn
  import opened JsonText

  // ----- one step at a time -----

  lemma Onward(js: string, p: Parser, q: Parser, room: nat)
    requires !AtEnd(js, p.pos) && Step(js, p, room) == Go(q)
    ensures Run(js, p, room) == Run(js, q, room)
  {
    hide Step;
  }

  lemma {:induction false} PlainStringEnds(js: string, i: nat, t: string)
    requires At(js, i, t) && (forall x :: 0 <= x < |t| ==> Plain(t[x]))
    requires i + |t| < |js| && js[i + |t|] == '"'
    ensures StringEnd(js, i) == Closed(i + |t|)
    decreases |t|
  {
    if t == [] {
    } else {
      AtChar(js, i, t, 0);
      AtParts(js, i, [t[0]], t[1..]);
      assert t == [t[0]] + t[1..];
      PlainStringEnds(js, i + 1, t[1..]);
    }
  }

  lemma {:induction false} NumberEnds(js: string, i: nat, t: string)
    requires At(js, i, t) && (forall x :: 0 <= x < |t| ==> IsDigit(t[x]) || t[x] == '-')
    requires i + |t| < |js| && Delimiter(js[i + |t|])
    ensures PrimitiveEnd(js, i) == Ends(i + |t|)
    decreases |t|
  {
    if t == [] {
    } else {
      AtChar(js, i, t, 0);
      assert t == [t[0]] + t[1..];
      AtParts(js, i, [t[0]], t[1..]);
      NumberEnds(js, i + 1, t[1..]);
    }
  }

  /** A quoted plain text becomes one token. */
  lemma QuotedRuns(js: string, p: Parser, room: nat, t: string)
    requires At(js, p.pos, "\"" + t + "\"") && |p.tokens| < room
    requires forall x :: 0 <= x < |t| ==> Plain(t[x])
    ensures var q := Emit(p, Text, p.pos + 1, p.pos + 1 + |t|, p.pos + |t| + 2);
      Run(js, p, room) == Run(js, q, room)
  {
    hide Emit, Open, Close, StringEnd;
    AtParts(js, p.pos, "\"" + t, "\"");
    AtParts(js, p.pos, "\"", t);
    AtChar(js, p.pos, "\"", 0);
    AtChar(js, p.pos + 1 + |t|, "\"", 0);
    PlainStringEnds(js, p.pos + 1, t);
    Onward(js, p, Emit(p, Text, p.pos + 1, p.pos + 1 + |t|, p.pos + |t| + 2), room);
  }

  lemma NumberRuns(js: string, p: Parser, room: nat, t: string)
    requires At(js, p.pos, t) && t != [] && |p.tokens| < room
    requires forall x :: 0 <= x < |t| ==> IsDigit(t[x]) || t[x] == '-'
    requires p.pos + |t| < |js| && Delimiter(js[p.pos + |t|])
    ensures var q := Emit(p, Primitive, p.pos, p.pos + |t|, p.pos + |t|);
      Run(js, p, room) == Run(js, q, room)
  {
    hide Emit, Open, Close, PrimitiveEnd;
    AtChar(js, p.pos, t, 0);
    NumberEnds(js, p.pos, t);
    Onward(js, p, Emit(p, Primitive, p.pos, p.pos + |t|, p.pos + |t|), room);
  }

  // ----- one field -----

  function ValueToken(a: nat, f: Field): Token {
    var v := a + |f.key| + 4;
    if f.quoted then Token(Text, v + 1, v + 1 + |f.value|, 0) else Token(Primitive, v, v + |f.value|, 0)
  }

  /** The two tokens of a field that begins at position a. */
  function FieldPair(a: nat, f: Field): (r: seq<Token>)
    ensures |r| == 2
  {
    [Token(Text, a + 1, a + 1 + |f.key|, 1), ValueToken(a, f)]
  }

  function AfterField(p: Parser, f: Field): Parser {
    p.(pos := p.pos + |FieldText(f)|, tokens := Bump(p.tokens, p.super) + FieldPair(p.pos, f), super := |p.tokens|)
  }

  lemma KeyThenValue(p: Parser, f: Field, p1: Parser, p2: Parser, p3: Parser)
    requires 0 <= p.super < |p.tokens|
    requires p1 == Emit(p, Text, p.pos + 1, p.pos + 1 + |f.key|, p.pos + |f.key| + 2)
    requires p2 == p1.(pos := p1.pos + 2, super := |p1.tokens| - 1)
    requires p3 == if f.quoted then Emit(p2, Text, p2.pos + 1, p2.pos + 1 + |f.value|, p2.pos + |f.value| + 2)
                   else Emit(p2, Primitive, p2.pos, p2.pos + |f.value|, p2.pos + |f.value|)
    ensures p3 == AfterField(p, f)
  {
    assert p3.tokens == Bump(p.tokens, p.super) + FieldPair(p.pos, f);
  }

  function ValueText(f: Field): string {
    if f.quoted then "\"" + f.value + "\"" else f.value
  }

  lemma FieldAt(js: string, a: nat, f: Field)
    requires At(js, a, FieldText(f))
    ensures At(js, a, "\"" + f.key + "\"") && At(js, a + |f.key| + 2, ": ") && At(js, a + |f.key| + 4, ValueText(f))
    ensures |FieldText(f)| == |f.key| + 4 + |ValueText(f)|
  {
    hide At;
    assert FieldText(f) == ("\"" + f.key + "\"") + (": " + ValueText(f));
    AtParts(js, a, "\"" + f.key + "\"", ": " + ValueText(f));
    AtParts(js, a + |f.key| + 2, ": ", ValueText(f));
  }

  lemma FieldRuns(js: string, p: Parser, room: nat, f: Field)
    requires PlainField(f) && At(js, p.pos, FieldText(f)) && |p.tokens| + 2 <= room
    requires 0 <= p.super < |p.tokens|
    requires p.pos + |FieldText(f)| < |js| && Delimiter(js[p.pos + |FieldText(f)|])
    ensures Run(js, p, room) == Run(js, AfterField(p, f), room)
  {
    hide Emit, Run, AfterField, At, Delimiter, FieldText;
    FieldAt(js, p.pos, f);
    QuotedRuns(js, p, room, f.key);
    var p1 := Emit(p, Text, p.pos + 1, p.pos + 1 + |f.key|, p.pos + |f.key| + 2);
    EmitFacts(p, Text, p.pos + 1, p.pos + 1 + |f.key|, p.pos + |f.key| + 2);
    ColonRuns(js, p1, room);
    var p2 := p1.(pos := p1.pos + 2, super := |p1.tokens| - 1);
    if f.quoted { QuotedRuns(js, p2, room, f.value); } else { NumberRuns(js, p2, room, f.value); }
    var p3 := if f.quoted then Emit(p2, Text, p2.pos + 1, p2.pos + 1 + |f.value|, p2.pos + |f.value| + 2)
              else Emit(p2, Primitive, p2.pos, p2.pos + |f.value|, p2.pos + |f.value|);
    KeyThenValue(p, f, p1, p2, p3);
  }

  lemma EmitFacts(p: Parser, kind: Type, start: nat, end: nat, pos: nat)
    ensures Emit(p, kind, start, end, pos).pos == pos && |Emit(p, kind, start, end, pos).tokens| == |p.tokens| + 1
  {
  }

  lemma ColonRuns(js: string, p: Parser, room: nat)
    requires At(js, p.pos, ": ")
    ensures Run(js, p, room) == Run(js, p.(pos := p.pos + 2, super := |p.tokens| - 1), room)
  {
    AtChar(js, p.pos, ": ", 0);
    AtChar(js, p.pos, ": ", 1);
    var q := p.(pos := p.pos + 1, super := |p.tokens| - 1);
    Onward(js, p, q, room);
    Onward(js, q, q.(pos := p.pos + 2), room);
  }

  /** After a value, a comma goes back to the enclosing container. */
  lemma CommaRuns(js: string, p: Parser, room: nat)
    requires At(js, p.pos, ", ") && 0 <= p.super < |p.tokens| && !Container(p.tokens[p.super]) && p.stack != []
    ensures Run(js, p, room) == Run(js, p.(pos := p.pos + 2, super := Top(p.stack)), room)
  {
    AtChar(js, p.pos, ", ", 0);
    AtChar(js, p.pos, ", ", 1);
    var q := p.(pos := p.pos + 1, super := Top(p.stack));
    Onward(js, p, q, room);
    Onward(js, q, q.(pos := p.pos + 2), room);
  }

  // ----- several fields -----

  function FieldTokens(a: nat, fs: seq<Field>): (r: seq<Token>)
    ensures |r| == 2 * |fs|
    decreases |fs|
  {
    if fs == [] then [] else FieldPair(a, fs[0]) + FieldTokens(a + |FieldText(fs[0])| + 2, fs[1..])
  }

  function Grown(ts: seq<Token>, o: nat, n: nat): (r: seq<Token>)
    requires o < |ts|
    ensures |r| == |ts|
  {
    ts[o := ts[o].(size := ts[o].size + n)]
  }

  /** n fields inside the open container o, which is on top of the stack. */
  function AfterFields(p: Parser, o: nat, fs: seq<Field>): Parser
    requires o < |p.tokens| && fs != []
  {
    p.(pos := p.pos + |FieldsText(fs)|, tokens := Grown(p.tokens, o, |fs|) + FieldTokens(p.pos, fs),
       super := |p.tokens| + 2 * |fs| - 2)
  }

  lemma FieldsChain(p: Parser, o: nat, fs: seq<Field>)
    requires o < |p.tokens| && |fs| > 1 && p.super == o == Top(p.stack)
    ensures AfterFields(NextField(p, o, fs[0]), o, fs[1..]) == AfterFields(p, o, fs)
  {
    hide FieldText, FieldTokens, FieldPair;
    TokensSplit(p.pos, fs);
    GrowthAddsUp(p.tokens, o, FieldPair(p.pos, fs[0]), FieldTokens(p.pos + |FieldText(fs[0])| + 2, fs[1..]), |fs| - 1);
  }

  lemma TokensSplit(a: nat, fs: seq<Field>)
    requires fs != []
    ensures FieldTokens(a, fs) == FieldPair(a, fs[0]) + FieldTokens(a + |FieldText(fs[0])| + 2, fs[1..])
  {
  }

  lemma GrowthAddsUp(ts: seq<Token>, o: nat, first: seq<Token>, rest: seq<Token>, n: nat)
    requires o < |ts|
    ensures Grown(Bump(ts, o) + first, o, n) + rest == Grown(ts, o, n + 1) + (first + rest)
  {
  }

  lemma CommaAt(js: string, a: nat)
    requires At(js, a, ", ")
    ensures a < |js| && Delimiter(js[a])
  {
    AtChar(js, a, ", ", 0);
  }

  /** Where the next field begins. */
  function NextField(p: Parser, o: nat, f: Field): (r: Parser)
    ensures r.pos == p.pos + |FieldText(f)| + 2 && r.super == o && r.stack == p.stack
    ensures |r.tokens| == |p.tokens| + 2
  {
    var q := AfterField(p, f);
    q.(pos := q.pos + 2, super := o)
  }

  lemma FieldThenComma(js: string, p: Parser, room: nat, o: nat, f: Field, rest: string)
    requires PlainField(f) && At(js, p.pos, FieldText(f) + (", " + rest)) && |p.tokens| + 2 <= room
    requires o < |p.tokens| && p.stack != [] && p.super == o == Top(p.stack)
    ensures Run(js, p, room) == Run(js, NextField(p, o, f), room)
    ensures At(js, NextField(p, o, f).pos, rest)
  {
    hide Run, FieldText, PlainField, AfterField, At, Delimiter;
    var q := AfterField(p, f);
    AfterFirst(p, f);
    AtParts(js, p.pos, FieldText(f), ", " + rest);
    AtParts(js, q.pos, ", ", rest);
    CommaAt(js, q.pos);
    FieldRuns(js, p, room, f);
    CommaRuns(js, q, room);
  }

  lemma {:induction false} FieldsRun(js: string, p: Parser, room: nat, o: nat, fs: seq<Field>)
    requires fs != [] && (forall i :: 0 <= i < |fs| ==> PlainField(fs[i]))
    requires At(js, p.pos, FieldsText(fs)) && |p.tokens| + 2 * |fs| <= room
    requires o < |p.tokens| && p.stack != [] && p.super == o == Top(p.stack)
    requires p.pos + |FieldsText(fs)| < |js| && Delimiter(js[p.pos + |FieldsText(fs)|])
    ensures Run(js, p, room) == Run(js, AfterFields(p, o, fs), room)
    decreases |fs|
  {
    hide Run, FieldText, FieldsText, PlainField, AfterField, AfterFields, At, Delimiter, NextField;
    FieldsUnfold(fs);
    if |fs| == 1 {
      FieldRuns(js, p, room, fs[0]);
      LastField(p, o, fs);
    } else {
      FieldThenComma(js, p, room, o, fs[0], FieldsText(fs[1..]));
      FieldsChain(p, o, fs);
      FieldsRun(js, NextField(p, o, fs[0]), room, o, fs[1..]);
    }
  }

  lemma LastField(p: Parser, o: nat, fs: seq<Field>)
    requires |fs| == 1 && o < |p.tokens| && p.super == o
    ensures AfterFields(p, o, fs) == AfterField(p, fs[0])
  {
    assert FieldTokens(p.pos, fs) == FieldPair(p.pos, fs[0]);
  }

  lemma AfterFirst(p: Parser, f: Field)
    requires 0 <= p.super < |p.tokens|
    ensures var q := AfterField(p, f);
      && q.pos == p.pos + |FieldText(f)| && q.stack == p.stack && |q.tokens| == |p.tokens| + 2
      && 0 <= q.super < |q.tokens| && !Container(q.tokens[q.super])
  {
  }

  // ----- one update object -----

  function EntryTokens(a: nat, fs: seq<Field>): (r: seq<Token>)
    ensures |r| == 1 + 2 * |fs|
  {
    [Token(Object, a, a + |FieldsText(fs)| + 2, |fs|)] + FieldTokens(a + 1, fs)
  }

  function AfterObject(p: Parser, fs: seq<Field>): Parser
    requires 0 <= p.super < |p.tokens|
  {
    p.(pos := p.pos + |FieldsText(fs)| + 2, tokens := Bump(p.tokens, p.super) + EntryTokens(p.pos, fs))
  }

  lemma OpenRuns(js: string, p: Parser, room: nat, kind: Type)
    requires p.pos < |js| && (kind == Object || kind == Array) && js[p.pos] == (if kind == Object then '{' else '[')
    requires |p.tokens| < room
    ensures Run(js, p, room) == Run(js, Open(p, kind), room)
  {
    hide Close, Emit;
    Onward(js, p, Open(p, kind), room);
  }

  lemma CloseRuns(js: string, p: Parser, room: nat, kind: Type)
    requires p.pos < |js| && (kind == Object || kind == Array) && js[p.pos] == (if kind == Object then '}' else ']')
    requires Close(p, kind).Go?
    ensures Run(js, p, room) == Run(js, Close(p, kind).p, room)
  {
    hide Open, Emit;
    Onward(js, p, Close(p, kind).p, room);
  }

  /** An object of plain fields, inside the open container that is both super and top of the stack. */
  lemma ObjectRuns(js: string, p: Parser, room: nat, fs: seq<Field>)
    requires fs != [] && (forall i :: 0 <= i < |fs| ==> PlainField(fs[i]))
    requires At(js, p.pos, "{" + FieldsText(fs) + "}") && |p.tokens| + 1 + 2 * |fs| <= room
    requires 0 <= p.super < |p.tokens| && p.stack != [] && p.super == Top(p.stack)
    ensures Run(js, p, room) == Run(js, AfterObject(p, fs), room)
  {
    hide Run, FieldsText, FieldTokens, PlainField;
    AtParts(js, p.pos, "{" + FieldsText(fs), "}");
    AtParts(js, p.pos, "{", FieldsText(fs));
    AtChar(js, p.pos, "{", 0);
    OpenRuns(js, p, room, Object);
    var q, o := Open(p, Object), |p.tokens|;
    AtChar(js, q.pos + |FieldsText(fs)|, "}", 0);
    FieldsRun(js, q, room, o, fs);
    var r := AfterFields(q, o, fs);
    CloseRuns(js, r, room, Object);
    assert r.stack[..|r.stack| - 1] == p.stack;
    assert Close(r, Object).p.tokens == AfterObject(p, fs).tokens;
  }

  // ----- the list of updates -----

  function ListTokens(inet: Inet, a: nat, es: seq<WireEntry>): (r: seq<Token>)
    ensures |r| == 9 * |es|
    decreases |es|
  {
    if es == [] then []
    else EntryTokens(a, EntryFields(inet, es[0])) + ListTokens(inet, a + |EntryText(inet, es[0])| + 1, es[1..])
  }

  /** Where the last update ends: two characters before the end of the text. */
  function AfterList(inet: Inet, p: Parser, es: seq<WireEntry>): Parser
    requires 0 <= p.super < |p.tokens| && es != []
  {
    p.(pos := p.pos + |ListText(inet, es)| - 2, tokens := Grown(p.tokens, p.super, |es|) + ListTokens(inet, p.pos, es))
  }

  lemma ListChain(inet: Inet, p: Parser, es: seq<WireEntry>)
    requires 0 <= p.super < |p.tokens| && |es| > 1
    ensures var q := AfterObject(p, EntryFields(inet, es[0]));
      var r := q.(pos := q.pos + 1);
      AfterList(inet, r, es[1..]) == AfterList(inet, p, es)
  {
    hide EntryFields, FieldsText, EntryTokens, ListTokens, ListText, Grown;
    ListTextSplit(inet, es);
    var first := EntryTokens(p.pos, EntryFields(inet, es[0]));
    var rest := ListTokens(inet, p.pos + |EntryText(inet, es[0])| + 1, es[1..]);
    ListSplit(inet, p.pos, es);
    GrowthAddsUp(p.tokens, p.super, first, rest, |es| - 1);
  }

  lemma ListTextSplit(inet: Inet, es: seq<WireEntry>)
    requires |es| > 1
    ensures |ListText(inet, es)| == |EntryText(inet, es[0])| + 1 + |ListText(inet, es[1..])|
  {
    hide EntryText;
  }

  lemma ListSplit(inet: Inet, a: nat, es: seq<WireEntry>)
    requires es != []
    ensures ListTokens(inet, a, es) ==
      EntryTokens(a, EntryFields(inet, es[0])) + ListTokens(inet, a + |EntryText(inet, es[0])| + 1, es[1..])
  {
  }

  lemma LastEntry(inet: Inet, p: Parser, es: seq<WireEntry>)
    requires 0 <= p.super < |p.tokens| && |es| == 1
    ensures AfterList(inet, p, es) == AfterObject(p, EntryFields(inet, es[0]))
  {
    hide EntryFields, FieldsText, EntryTokens;
    assert ListTokens(inet, p.pos, es) == EntryTokens(p.pos, EntryFields(inet, es[0])) + [];
    assert AfterList(inet, p, es).tokens == AfterObject(p, EntryFields(inet, es[0])).tokens;
  }

  lemma ListCommaRuns(js: string, p: Parser, room: nat)
    requires At(js, p.pos, ",") && 0 <= p.super < |p.tokens| && Container(p.tokens[p.super])
    ensures Run(js, p, room) == Run(js, p.(pos := p.pos + 1), room)
  {
    AtChar(js, p.pos, ",", 0);
    Onward(js, p, p.(pos := p.pos + 1), room);
  }

  lemma EntryRuns(js: string, inet: Inet, p: Parser, room: nat, e: WireEntry)
    requires InetOk(inet) && FineEntry(e) && At(js, p.pos, EntryText(inet, e)) && |p.tokens| + 9 <= room
    requires 0 <= p.super < |p.tokens| && p.stack != [] && p.super == Top(p.stack)
    ensures Run(js, p, room) == Run(js, AfterObject(p, EntryFields(inet, e)), room)
  {
    hide Run, FineEntry, InetOk, AfterObject, FieldsText, PlainField;
    EntryFieldsPlain(inet, e);
    ObjectRuns(js, p, room, EntryFields(inet, e));
  }

  lemma ObjectFacts(inet: Inet, p: Parser, e: WireEntry)
    requires 0 <= p.super < |p.tokens|
    ensures var q := AfterObject(p, EntryFields(inet, e));
      && q.pos == p.pos + |EntryText(inet, e)| && |q.tokens| == |p.tokens| + 9
      && q.super == p.super && q.stack == p.stack && q.tokens[q.super].kind == p.tokens[p.super].kind
  {
    hide FieldsText;
    FourFields(inet, e);
  }

  lemma {:induction false} ListRuns(js: string, inet: Inet, p: Parser, room: nat, es: seq<WireEntry>)
    requires InetOk(inet) && es != [] && (forall i :: 0 <= i < |es| ==> FineEntry(es[i]))
    requires At(js, p.pos, ListText(inet, es)) && |p.tokens| + 9 * |es| <= room
    requires 0 <= p.super < |p.tokens| && p.stack != [] && p.super == Top(p.stack) && Container(p.tokens[p.super])
    ensures Run(js, p, room) == Run(js, AfterList(inet, p, es), room)
    decreases |es|
  {
    hide Run, FineEntry, InetOk, AfterList, AfterObject, EntryText, EntryFields;
    var q := AfterObject(p, EntryFields(inet, es[0]));
    ObjectFacts(inet, p, es[0]);
    if |es| == 1 {
      AtParts(js, p.pos, EntryText(inet, es[0]), "]}");
      EntryRuns(js, inet, p, room, es[0]);
      LastEntry(inet, p, es);
    } else {
      ListHead(js, inet, p.pos, es);
      EntryRuns(js, inet, p, room, es[0]);
      ListCommaRuns(js, q, room);
      ListChain(inet, p, es);
      ListRuns(js, inet, q.(pos := q.pos + 1), room, es[1..]);
    }
  }

  lemma ListHead(js: string, inet: Inet, a: nat, es: seq<WireEntry>)
    requires |es| > 1 && At(js, a, ListText(inet, es))
    ensures At(js, a, EntryText(inet, es[0])) && At(js, a + |EntryText(inet, es[0])|, ",")
    ensures At(js, a + |EntryText(inet, es[0])| + 1, ListText(inet, es[1..]))
  {
    hide EntryText;
    var rest := ListText(inet, es[1..]);
    assert ListText(inet, es) == EntryText(inet, es[0]) + ("," + rest);
    AtParts(js, a, EntryText(inet, es[0]), "," + rest);
    AtParts(js, a + |EntryText(inet, es[0])|, ",", rest);
  }

  // ----- a whole message -----

  /** The tokenizer inside the brackets of the updates. */
  function AfterHead(inet: Inet, m: WireMessage): Parser {
    var fs := HeadFields(inet, m);
    var a := 1 + |FieldsText(fs)|;
    Parser(|HeadText(inet, m)|,
           [Token(Object, 0, -1, 6)] + FieldTokens(1, fs)
           + [Token(Text, a + 3, a + 10, 1), Token(Array, a + 13, -1, 0)],
           12, [0, 12], 1)
  }

  lemma HeadFieldsPlain(inet: Inet, m: WireMessage)
    requires InetOk(inet) && FineEntry(m.head)
    ensures forall i :: 0 <= i < 5 ==> PlainField(HeadFields(inet, m)[i])
  {
    hide IntText, UriText, InetOk, SoundEntry, Survives;
    EntryFieldsPlain(inet, m.head);
    assert forall i :: 1 <= i < 5 ==> HeadFields(inet, m)[i] == EntryFields(inet, m.head)[i - 1];
  }

  lemma UpdatesKeyRuns(js: string, p: Parser, room: nat)
    requires At(js, p.pos, ", \"updates\": [") && |p.tokens| + 2 <= room
    requires p.stack == [0] && 0 < p.super < |p.tokens| && !Container(p.tokens[p.super])
    ensures Run(js, p, room) == Run(js,
      Parser(p.pos + 14, Bump(p.tokens, 0) + [Token(Text, p.pos + 3, p.pos + 10, 1), Token(Array, p.pos + 13, -1, 0)],
             |p.tokens| + 1, [0, |p.tokens| + 1], p.orphans), room)
  {
    hide Run;
    var key := "updates";
    assert ", \"updates\": [" == ", " + ("\"" + key + "\"") + ": " + "[";
    AtParts(js, p.pos, ", " + ("\"" + key + "\"") + ": ", "[");
    AtParts(js, p.pos, ", " + ("\"" + key + "\""), ": ");
    AtParts(js, p.pos, ", ", "\"" + key + "\"");
    CommaRuns(js, p, room);
    var p1 := p.(pos := p.pos + 2, super := 0);
    QuotedRuns(js, p1, room, key);
    var p2 := Emit(p1, Text, p1.pos + 1, p1.pos + 8, p1.pos + 9);
    ColonRuns(js, p2, room);
    var p3 := p2.(pos := p2.pos + 2, super := |p2.tokens| - 1);
    AtChar(js, p3.pos, "[", 0);
    OpenRuns(js, p3, room, Array);
    var p4 := Open(p3, Array);
    assert p4.tokens == Bump(p.tokens, 0) + [Token(Text, p.pos + 3, p.pos + 10, 1), Token(Array, p.pos + 13, -1, 0)];
    assert p4.stack == [0, |p.tokens| + 1];
  }

  lemma HeadRuns(js: string, inet: Inet, m: WireMessage, room: nat)
    requires InetOk(inet) && FineEntry(m.head) && At(js, 0, HeadText(inet, m)) && room >= 13
    ensures Run(js, INITIAL, room) == Run(js, AfterHead(inet, m), room)
  {
    hide Run, InetOk, SoundEntry, Survives, PlainField, FieldsText, FieldTokens;
    var fs := HeadFields(inet, m);
    var tail := ", \"updates\": [";
    HeadFieldsPlain(inet, m);
    assert HeadText(inet, m) == ("{" + FieldsText(fs)) + tail;
    AtParts(js, 0, "{" + FieldsText(fs), tail);
    AtParts(js, 0, "{", FieldsText(fs));
    AtChar(js, 0, "{", 0);
    AtChar(js, 1 + |FieldsText(fs)|, tail, 0);
    OpenRuns(js, INITIAL, room, Object);
    var p := Open(INITIAL, Object);
    assert p == Parser(1, [Token(Object, 0, -1, 0)], 0, [0], 1);
    FieldsRun(js, p, room, 0, fs);
    var q := AfterFields(p, 0, fs);
    assert q.tokens == [Token(Object, 0, -1, 5)] + FieldTokens(1, fs);
    KeysAreTexts(fs, 1);
    UpdatesKeyRuns(js, q, room);
    assert Bump(q.tokens, 0) == [Token(Object, 0, -1, 6)] + FieldTokens(1, fs);
  }

  lemma {:induction false} KeysAreTexts(fs: seq<Field>, a: nat)
    requires fs != []
    ensures FieldTokens(a, fs)[2 * |fs| - 2].kind == Text
    decreases |fs|
  {
    hide FieldText;
    if |fs| <= 1 {
    } else {
      KeysAreTexts(fs[1..], a + |FieldText(fs[0])| + 2);
    }
  }

  /** All tokens of an encoded message with at least one update. */
  function MessageTokens(inet: Inet, m: WireMessage): (r: seq<Token>)
    ensures |r| == 13 + 9 * |m.updates|
  {
    var fs, n := HeadFields(inet, m), |EncodeText(inet, m)|;
    var a := 1 + |FieldsText(fs)|;
    [Token(Object, 0, n, 6)] + FieldTokens(1, fs)
    + [Token(Text, a + 3, a + 10, 1), Token(Array, a + 13, n - 1, |m.updates|)]
    + ListTokens(inet, |HeadText(inet, m)|, m.updates)
  }

  /** The closing brackets end the parse. */
  lemma EndRuns(js: string, p: Parser, room: nat)
    requires p.pos + 2 == |js| && At(js, p.pos, "]}") && p.stack == [0, 12] && |p.tokens| > 12
    requires p.tokens[0].kind == Object && p.tokens[12].kind == Array
    ensures Run(js, p, room).1 == Done(|p.tokens|)
    ensures Run(js, p, room).0.tokens == p.tokens[12 := p.tokens[12].(end := p.pos + 1)]
                                         [0 := p.tokens[0].(end := p.pos + 2)]
  {
    AtChar(js, p.pos, "]}", 0);
    AtChar(js, p.pos, "]}", 1);
    CloseRuns(js, p, room, Array);
    var q := Close(p, Array).p;
    assert q.stack == [0];
    CloseRuns(js, q, room, Object);
    var r := Close(q, Object).p;
    assert r.stack == [];
    assert Run(js, r, room) == (r, Done(|r.tokens|));
  }

  /** Tokenizing an encoded message succeeds and yields exactly these tokens. */
  lemma EncodedTokens(inet: Inet, m: WireMessage, room: nat)
    requires InetOk(inet) && FineMessage(m) && m.updates != [] && room >= |EncodeText(inet, m)|
    ensures Run(EncodeText(inet, m), INITIAL, room).1 == Done(13 + 9 * |m.updates|)
    ensures Run(EncodeText(inet, m), INITIAL, room).0.tokens == MessageTokens(inet, m)
  {
    hide Run, InetOk, SoundEntry, Survives, Open, Close, Emit;
    hide FieldsText, FieldTokens, HeadFields, ListText, HeadText, ListTokens;
    var js := EncodeText(inet, m);
    var n := |m.updates|;
    var list := ListText(inet, m.updates);
    assert js[0..|js|] == js;
    AtParts(js, 0, HeadText(inet, m), list);
    LongEnough(inet, m);
    FiveFields(inet, m);
    HeadRuns(js, inet, m, room);
    var p := AfterHead(inet, m);
    ListRuns(js, inet, p, room, m.updates);
    var q := AfterList(inet, p, m.updates);
    ListIsLong(inet, m.updates);
    assert js == HeadText(inet, m) + list;
    assert js[q.pos..q.pos + 2] == "]}";
    EndRuns(js, q, room);
    assert q.tokens[12 := q.tokens[12].(end := q.pos + 1)][0 := q.tokens[0].(end := q.pos + 2)] ==
      MessageTokens(inet, m);
  }

  /** Every token of the message costs at least one character. */
  lemma LongEnough(inet: Inet, m: WireMessage)
    requires m.updates != []
    ensures |EncodeText(inet, m)| >= 13 + 9 * |m.updates|
  {
    hide FieldsText;
    FieldsAreLong(HeadFields(inet, m));
    ListCosts(inet, m.updates);
  }

  lemma {:induction false} FieldsAreLong(fs: seq<Field>)
    ensures |FieldsText(fs)| >= 4 * |fs|
    decreases |fs|
  {
    if |fs| <= 1 {
    } else {
      FieldsAreLong(fs[1..]);
    }
  }

  lemma {:induction false} ListCosts(inet: Inet, es: seq<WireEntry>)
    ensures |ListText(inet, es)| >= 9 * |es|
    decreases |es|
  {
    hide FieldsText, EntryFields;
    if es == [] {
    } else {
      FieldsAreLong(EntryFields(inet, es[0]));
      FourFields(inet, es[0]);
      if |es| > 1 { ListCosts(inet, es[1..]); }
    }
  }

  lemma FourFields(inet: Inet, e: WireEntry)
    ensures |EntryFields(inet, e)| == 4
  {
  }

  /** With no update the text lacks its closing brackets and the parse fails. */
  lemma EmptyIsPartial(inet: Inet, m: WireMessage, room: nat)
    requires InetOk(inet) && FineMessage(m) && m.updates == [] && room >= |EncodeText(inet, m)|
    ensures Run(EncodeText(inet, m), INITIAL, room).1 == Failed(Partial)
  {
    hide InetOk, SoundEntry, Survives, FieldsText, FieldTokens, HeadFields;
    var js := EncodeText(inet, m);
    assert js == HeadText(inet, m);
    assert js[0..|js|] == js;
    FieldsAreLong(HeadFields(inet, m));
    FiveFields(inet, m);
    HeadRuns(js, inet, m, room);
  }

  lemma FiveFields(inet: Inet, m: WireMessage)
    ensures |HeadFields(inet, m)| == 5
  {
  }
}

/**
 * The token walk of src/decode_json.c. A walk that would read past the parsed tokens or overrun a buffer,
 * where C leaves the outcome open, yields None.
 */
module JsonDecode {
  import opened Types
  import opened Numbers
  import opened Jsmn
  import opened JsonText
  import opened JsonTokens
  import J = JsmnInPlace

  // ----- tokens as text -----

  predicate InText(js: string, t: Token) {
    0 <= t.start <= t.end <= |js|
  }

  ghost predicate AllInText(js: string, ts: seq<Token>) {
    forall x :: 0 <= x < |ts| ==> InText(js, ts[x])
  }

  /** `jsoneq` */
  predicate JsonEq(js: string, t: Token, s: string)
    requires InText(js, t)
  {
    t.kind == Text && js[t.start..t.end] == s
  }

  /** `strncpy` over a buffer that already holds a text. */
  function Overlaid(old_: string, text: string): string {
    text + if |text| < |old_| then old_[|text|..] else ""
  }

  /** Store the value of a known key in an entry. */
  function SetField(inet: Inet, js: string, key: string, v: Token, e: WireEntry): Option<WireEntry>
    requires InText(js, v)
  {
    var text := js[v.start..v.end];
    if key == "uuid" then if |text| > UUID_LENGTH then None else Some(e.(uuid := Overlaid(e.uuid, text)))
    else if key == "uri" then
      var a := DecodeUri(inet, text);
      if a.None? then None else Some(e.(addr := a.value))
    else if key == "status" then Some(e.(status := ToEnum(Strtol(js, v.start).0)))
    else Some(e.(incarnation := ToSize(Strtol(js, v.start).0)))
  }

  /** Key and value tokens that show field f. */
  ghost predicate Shows(js: string, key: Token, v: Token, f: Field) {
    && InText(js, key) && key.kind == Text && js[key.start..key.end] == f.key
    && InText(js, v) && v.kind == (if f.quoted then Text else Primitive) && js[v.start..v.end] == f.value
    && v.end < |js| && !IsDigit(js[v.end])
  }

  lemma PairParts(js: string, a: nat, f: Field)
    requires At(js, a, FieldText(f))
    ensures At(js, a + 1, f.key) && At(js, a + |f.key| + 4, ValueText(f))
    ensures |FieldText(f)| == |f.key| + 4 + |ValueText(f)|
  {
    hide FieldText, ValueText;
    FieldAt(js, a, f);
    QuotedValue(js, a, f.key);
  }

  lemma PairShows(js: string, a: nat, f: Field)
    requires At(js, a, FieldText(f)) && a + |FieldText(f)| < |js| && Delimiter(js[a + |FieldText(f)|])
    ensures Shows(js, FieldPair(a, f)[0], FieldPair(a, f)[1], f)
  {
    hide Delimiter, FieldText, ValueText, At, IsDigit;
    PairParts(js, a, f);
    Standing(js, a + 1, f.key);
    ValueStands(js, a + |f.key| + 4, f);
  }

  lemma ValueStands(js: string, v: nat, f: Field)
    requires At(js, v, ValueText(f)) && v + |ValueText(f)| < |js| && Delimiter(js[v + |ValueText(f)|])
    ensures var a := if f.quoted then v + 1 else v;
      a + |f.value| < |js| && js[a..a + |f.value|] == f.value && !IsDigit(js[a + |f.value|])
  {
    hide Delimiter, At;
    if f.quoted {
      QuotedValue(js, v, f.value);
      Standing(js, v + 1, f.value);
    } else {
      Standing(js, v, f.value);
      NoDigit(js[v + |f.value|]);
    }
  }

  lemma Standing(js: string, a: nat, t: string)
    requires At(js, a, t)
    ensures a + |t| <= |js| && js[a..a + |t|] == t
  {
  }

  lemma QuotedValue(js: string, v: nat, value: string)
    requires At(js, v, "\"" + value + "\"")
    ensures At(js, v + 1, value) && v + 1 + |value| < |js| && js[v + 1 + |value|] == '"'
  {
    AtParts(js, v, "\"" + value, "\"");
    AtParts(js, v, "\"", value);
    AtChar(js, v + 1 + |value|, "\"", 0);
  }

  lemma NoDigit(c: char)
    requires Delimiter(c)
    ensures !IsDigit(c)
  {
  }

  lemma {:induction false} FieldsShow(js: string, a: nat, fs: seq<Field>, q: nat)
    requires q < |fs| && At(js, a, FieldsText(fs))
    requires a + |FieldsText(fs)| < |js| && Delimiter(js[a + |FieldsText(fs)|])
    ensures Shows(js, FieldTokens(a, fs)[2 * q], FieldTokens(a, fs)[2 * q + 1], fs[q])
    decreases |fs|
  {
    hide FieldText, Shows;
    if |fs| == 1 {
      PairShows(js, a, fs[0]);
    } else {
      FieldsParts(js, a, fs);
      if q == 0 {
        PairShows(js, a, fs[0]);
      } else {
        hide Delimiter, At, FieldsText;
        FieldsShow(js, a + |FieldText(fs[0])| + 2, fs[1..], q - 1);
      }
    }
  }

  lemma FieldsParts(js: string, a: nat, fs: seq<Field>)
    requires |fs| > 1 && At(js, a, FieldsText(fs))
    ensures At(js, a, FieldText(fs[0])) && At(js, a + |FieldText(fs[0])| + 2, FieldsText(fs[1..]))
    ensures a + |FieldText(fs[0])| < |js| && Delimiter(js[a + |FieldText(fs[0])|])
    ensures a + |FieldsText(fs)| == a + |FieldText(fs[0])| + 2 + |FieldsText(fs[1..])|
  {
    hide FieldText, FieldsText, At, Delimiter;
    FieldsUnfold(fs);
    var rest := FieldsText(fs[1..]);
    AtParts(js, a, FieldText(fs[0]), ", " + rest);
    AtParts(js, a + |FieldText(fs[0])|, ", ", rest);
    CommaAt(js, a + |FieldText(fs[0])|);
  }

  /** js is the text of the fine message m, and ts are its tokens. */
  ghost predicate Genuine(inet: Inet, js: string, ts: seq<Token>, m: WireMessage) {
    && InetOk(inet) && FineMessage(m) && m.updates != []
    && js == EncodeText(inet, m) && ts == MessageTokens(inet, m)
  }

  /** Where the pieces of the head stand. */
  lemma HeadParts(inet: Inet, js: string, m: WireMessage)
    requires js == EncodeText(inet, m)
    ensures var fs, tail := HeadFields(inet, m), ", \"updates\": [";
      && At(js, 1, FieldsText(fs)) && At(js, 1 + |FieldsText(fs)|, tail)
      && At(js, |HeadText(inet, m)|, ListText(inet, m.updates))
  {
    hide FieldsText, ListText, HeadFields;
    var text, tail, list := FieldsText(HeadFields(inet, m)), ", \"updates\": [", ListText(inet, m.updates);
    assert HeadText(inet, m) == ("{" + text) + tail;
    assert js[0..|js|] == js;
    AtParts(js, 0, HeadText(inet, m), list);
    AtParts(js, 0, "{" + text, tail);
    AtParts(js, 0, "{", text);
  }

  lemma HeadShows(inet: Inet, js: string, ts: seq<Token>, m: WireMessage, q: nat)
    requires Genuine(inet, js, ts, m) && q < 5
    ensures Shows(js, ts[1 + 2 * q], ts[2 + 2 * q], HeadFields(inet, m)[q])
  {
    hide FieldsText, FieldTokens, Shows, ListTokens, ListText, InetOk, FineMessage, HeadFields, EncodeText;
    FiveFields(inet, m);
    HeadParts(inet, js, m);
    var fs, tail := HeadFields(inet, m), ", \"updates\": [";
    AtChar(js, 1 + |FieldsText(fs)|, tail, 0);
    FieldsShow(js, 1, fs, q);
    assert ts[1 + 2 * q] == FieldTokens(1, fs)[2 * q] && ts[2 + 2 * q] == FieldTokens(1, fs)[2 * q + 1];
  }

  lemma UpdatesShow(inet: Inet, js: string, ts: seq<Token>, m: WireMessage)
    requires Genuine(inet, js, ts, m)
    ensures |ts| == 13 + 9 * |m.updates|
    ensures ts[0].kind == Object && ts[12].kind == Array && ts[12].size == |m.updates|
    ensures InText(js, ts[11]) && JsonEq(js, ts[11], "updates")
  {
    hide FieldsText, FieldTokens, ListTokens, ListText, InetOk, FineMessage, HeadFields, EncodeText, HeadText;
    FiveFields(inet, m);
    HeadParts(inet, js, m);
    var a := 1 + |FieldsText(HeadFields(inet, m))|;
    assert ", \"updates\": [" == ", \"" + ("updates" + "\": [");
    AtParts(js, a, ", \"", "updates" + "\": [");
    AtParts(js, a + 3, "updates", "\": [");
  }

  lemma ListUnfolds(inet: Inet, es: seq<WireEntry>)
    requires es != []
    ensures ListText(inet, es) ==
      EntryText(inet, es[0]) + if |es| == 1 then "]}" else "," + ListText(inet, es[1..])
  {
    hide EntryText;
    if |es| > 1 { Glued(EntryText(inet, es[0]), ",", ListText(inet, es[1..])); }
  }

  lemma ListParts(inet: Inet, js: string, a: nat, es: seq<WireEntry>)
    requires At(js, a, ListText(inet, es)) && es != []
    ensures var text := FieldsText(EntryFields(inet, es[0]));
      At(js, a + 1, text) && a + 1 + |text| < |js| && js[a + 1 + |text|] == '}'
    ensures |es| > 1 ==> At(js, a + |EntryText(inet, es[0])| + 1, ListText(inet, es[1..]))
  {
    hide FieldsText, EntryFields, ListText, At;
    ListUnfolds(inet, es);
    var text := FieldsText(EntryFields(inet, es[0]));
    var rest := if |es| == 1 then "]}" else "," + ListText(inet, es[1..]);
    AtParts(js, a, ("{" + text) + "}", rest);
    AtParts(js, a, "{" + text, "}");
    AtParts(js, a, "{", text);
    BraceAt(js, a + 1 + |text|);
    if |es| > 1 { AtParts(js, a + |text| + 2, ",", ListText(inet, es[1..])); }
  }

  lemma BraceAt(js: string, a: nat)
    requires At(js, a, "}")
    ensures a < |js| && js[a] == '}'
  {
    AtChar(js, a, "}", 0);
  }

  lemma {:induction false} ListShows(inet: Inet, js: string, a: nat, es: seq<WireEntry>, j: nat, q: nat)
    requires At(js, a, ListText(inet, es)) && j < |es| && q < 4
    ensures Shows(js, ListTokens(inet, a, es)[9 * j + 1 + 2 * q], ListTokens(inet, a, es)[9 * j + 2 + 2 * q],
                  EntryFields(inet, es[j])[q])
    ensures ListTokens(inet, a, es)[9 * j].kind == Object && ListTokens(inet, a, es)[9 * j].size == 4
    decreases |es|
  {
    hide FieldsText, FieldTokens, Shows, EntryFields, ListTokens, EntryText;
    FourFields(inet, es[0]);
    ListSplit(inet, a, es);
    ListParts(inet, js, a, es);
    if j == 0 {
      FieldsShow(js, a + 1, EntryFields(inet, es[0]), q);
    } else {
      ListShows(inet, js, a + |EntryText(inet, es[0])| + 1, es[1..], j - 1, q);
      Nine(inet, a, es, j, q);
    }
  }

  lemma Nine(inet: Inet, a: nat, es: seq<WireEntry>, j: nat, q: nat)
    requires 0 < j < |es| && q < 4
    ensures var rest := ListTokens(inet, a + |EntryText(inet, es[0])| + 1, es[1..]);
      && ListTokens(inet, a, es)[9 * j] == rest[9 * (j - 1)]
      && ListTokens(inet, a, es)[9 * j + 1 + 2 * q] == rest[9 * (j - 1) + 1 + 2 * q]
      && ListTokens(inet, a, es)[9 * j + 2 + 2 * q] == rest[9 * (j - 1) + 2 + 2 * q]
  {
    hide ListTokens, EntryText, EntryTokens, EntryFields;
    FourFields(inet, es[0]);
    ListSplit(inet, a, es);
  }

  /** The cursor arithmetic of the decoder: object j is token 13 + 9j, its fields follow in pairs. */
  lemma EntryShows(inet: Inet, js: string, ts: seq<Token>, m: WireMessage, j: nat, q: nat)
    requires Genuine(inet, js, ts, m) && j < |m.updates| && q < 4
    ensures 15 + 9 * j + 2 * q < |ts|
    ensures ts[13 + 9 * j].kind == Object && ts[13 + 9 * j].size == 4
    ensures Shows(js, ts[14 + 9 * j + 2 * q], ts[15 + 9 * j + 2 * q], EntryFields(inet, m.updates[j])[q])
  {
    hide FieldsText, FieldTokens, Shows, ListTokens, ListText, HeadText, InetOk, FineMessage, HeadFields, EntryFields;
    FiveFields(inet, m);
    HeadParts(inet, js, m);
    ListShows(inet, js, |HeadText(inet, m)|, m.updates, j, q);
    var list := ListTokens(inet, |HeadText(inet, m)|, m.updates);
    assert forall x :: 0 <= x < |list| ==> ts[13 + x] == list[x];
  }

  // ----- reading fields back -----

  /** The entry with its first q fields filled in. */
  function Partly(e: WireEntry, q: nat): WireEntry {
    WireEntry(if q > 0 then e.uuid else "", if q > 1 then e.addr else NO_ADDR,
              if q > 2 then e.status else 0, if q > 3 then e.incarnation else 0)
  }

  lemma NumberShown(js: string, key: Token, v: Token, name: string, i: int)
    requires Shows(js, key, v, Field(name, IntText(i), false)) && -LONG_MAX <= i <= LONG_MAX
    ensures Strtol(js, v.start).0 == i
  {
    hide IntText;
    StrtolReads(js, v.start, i);
  }

  lemma Low32Small(n: nat)
    ensures -LONG_MAX <= Low32(n) <= LONG_MAX
  {
  }

  lemma FieldReadsBack(inet: Inet, js: string, key: Token, v: Token, e: WireEntry, q: nat)
    requires InetOk(inet) && FineEntry(e) && q < 4
    requires Shows(js, key, v, EntryFields(inet, e)[q])
    ensures SetField(inet, js, KEYS[q], v, Partly(e, q)) == Some(Partly(e, q + 1))
  {
    hide IntText, UriText, DecodeUri, Strtol, InetOk, Low32, ToSize, ToEnum;
    if q == 0 {
      assert Overlaid("", e.uuid) == e.uuid;
    } else if q == 1 {
      UriReadsBack(inet, e.addr);
    } else if q == 2 {
      Low32Small(e.status);
      NumberShown(js, key, v, "status", Low32(e.status));
      EnumSurvives(e.status);
    } else {
      Low32Small(e.incarnation);
      NumberShown(js, key, v, "incarnation", Low32(e.incarnation));
      SizeSurvivesIff(e.incarnation);
    }
  }

  /** The message with its first q head fields filled in. */
  function PartlyHead(m: WireMessage, q: nat): WireMessage {
    WireMessage(if q > 0 then m.kind else 0, Partly(m.head, if q > 0 then q - 1 else 0), [])
  }

  /** A value in the head of a fine message is not mistaken for a key, the sender's uuid perhaps excepted. */
  lemma ValueIsNoKey(inet: Inet, js: string, ts: seq<Token>, m: WireMessage, q: nat, key: string)
    requires Genuine(inet, js, ts, m) && q < 5 && (key in HEAD_KEYS || key == "updates")
    requires AllInText(js, ts) && (q == 1 ==> m.head.uuid != key)
    ensures !JsonEq(js, ts[2 + 2 * q], key)
  {
    hide InetOk, FieldsText, EncodeText, MessageTokens, IntText, UriText, SoundEntry, Survives;
    HeadShows(inet, js, ts, m, q);
    if q == 2 { UriIsNoKey(inet, m.head, key); }
  }

  lemma UriIsNoKey(inet: Inet, e: WireEntry, key: string)
    requires InetOk(inet) && FineEntry(e) && (key in HEAD_KEYS || key == "updates")
    ensures UriText(inet, e.addr) != key
  {
    hide InetOk, UriText;
    UriReadsBack(inet, e.addr);
    assert ':' !in "message" && ':' !in "uuid" && ':' !in "uri";
    assert ':' !in "status" && ':' !in "incarnation" && ':' !in "updates";
  }

  lemma KeyShown(inet: Inet, js: string, ts: seq<Token>, m: WireMessage, q: nat, key: string)
    requires Genuine(inet, js, ts, m) && q < 5 && AllInText(js, ts)
    ensures JsonEq(js, ts[1 + 2 * q], key) <==> key == HEAD_KEYS[q]
  {
    hide InetOk, FineMessage, FieldsText, EncodeText, MessageTokens, IntText, UriText;
    HeadShows(inet, js, ts, m, q);
  }

  // ----- the walk over the head -----

  /** One of the `if`s of the walk: when token i is this key, take its value and step onto it. */
  function TakeField(inet: Inet, js: string, ts: seq<Token>, i: nat, key: string, m: WireMessage)
    : (r: Option<(nat, WireMessage)>)
    requires AllInText(js, ts) && i < |ts|
    ensures r.Some? ==> i <= r.value.0 < |ts|
  {
    if !JsonEq(js, ts[i], key) then Some((i, m))
    else if i + 1 >= |ts| then None
    else if key == "message" then Some((i + 1, m.(kind := ToEnum(Strtol(js, ts[i + 1].start).0))))
    else
      var e := SetField(inet, js, key, ts[i + 1], m.head);
      if e.None? then None else Some((i + 1, m.(head := e.value)))
  }

  /** The `if`s from the x-th on. */
  function TakeFrom(inet: Inet, js: string, ts: seq<Token>, i: nat, m: WireMessage, x: nat)
    : (r: Option<(nat, WireMessage)>)
    requires AllInText(js, ts) && i < |ts| && x <= 5
    ensures r.Some? ==> i <= r.value.0 < |ts|
    decreases 5 - x
  {
    if x == 5 then Some((i, m))
    else
      var r := TakeField(inet, js, ts, i, HEAD_KEYS[x], m);
      if r.None? then None else TakeFrom(inet, js, ts, r.value.0, r.value.1, x + 1)
  }

  method TakeOne(inet: Inet, js: string, ts: seq<Token>, i: nat, key: string, m: WireMessage)
    returns (r: Option<(nat, WireMessage)>)
    requires AllInText(js, ts) && i < |ts|
    ensures r == TakeField(inet, js, ts, i, key, m)
  {
    if JsonEq(js, ts[i], key) {
      if i + 1 >= |ts| {
        return None;
      }
      if key == "message" {
        return Some((i + 1, m.(kind := ToEnum(Strtol(js, ts[i + 1].start).0))));
      }
      var e := SetField(inet, js, key, ts[i + 1], m.head);
      if e.None? {
        return None;
      }
      return Some((i + 1, m.(head := e.value)));
    }
    return Some((i, m));
  }

  lemma {:induction false} NoKeyNoStep(inet: Inet, js: string, ts: seq<Token>, i: nat, m: WireMessage, x: nat)
    requires AllInText(js, ts) && i < |ts| && x <= 5
    requires forall y :: x <= y < 5 ==> !JsonEq(js, ts[i], HEAD_KEYS[y])
    ensures TakeFrom(inet, js, ts, i, m, x) == Some((i, m))
    decreases 5 - x
  {
    if x >= 5 {
    } else {
      NoKeyNoStep(inet, js, ts, i, m, x + 1);
    }
  }

  lemma FieldTaken(inet: Inet, js: string, ts: seq<Token>, m: WireMessage, q: nat)
    requires Genuine(inet, js, ts, m) && q < 5 && AllInText(js, ts)
    ensures TakeField(inet, js, ts, 1 + 2 * q, HEAD_KEYS[q], PartlyHead(m, q)) ==
      Some((2 + 2 * q, PartlyHead(m, q + 1)))
  {
    hide InetOk, SoundEntry, Survives, FieldsText, EncodeText, MessageTokens;
    hide IntText, UriText, SetField, Strtol, JsonEq;
    KeyShown(inet, js, ts, m, q, HEAD_KEYS[q]);
    HeadShows(inet, js, ts, m, q);
    if q == 0 {
      Low32Small(m.kind);
      NumberShown(js, ts[1], ts[2], "message", Low32(m.kind));
      EnumSurvives(m.kind);
    } else {
      FieldReadsBack(inet, js, ts[1 + 2 * q], ts[2 + 2 * q], m.head, q - 1);
    }
  }

  /** One round takes exactly the field under the cursor. */
  lemma {:induction false} RoundTakes(inet: Inet, js: string, ts: seq<Token>, m: WireMessage, q: nat, x: nat)
    requires Genuine(inet, js, ts, m) && x <= q < 5 && AllInText(js, ts) && (q == 1 ==> Unmistakable(m))
    ensures TakeFrom(inet, js, ts, 1 + 2 * q, PartlyHead(m, q), x) == Some((2 + 2 * q, PartlyHead(m, q + 1)))
    decreases q - x
  {
    hide Genuine, JsonEq, SetField, PartlyHead;
    KeyShown(inet, js, ts, m, q, HEAD_KEYS[x]);
    if x < q {
      RoundTakes(inet, js, ts, m, q, x + 1);
    } else {
      FieldTaken(inet, js, ts, m, q);
      forall y | x < y < 5 ensures !JsonEq(js, ts[2 + 2 * q], HEAD_KEYS[y]) {
        assert HEAD_KEYS[y] in HEAD_KEYS;
        if q == 1 { assert HEAD_KEYS[y] in LATER_KEYS; }
        ValueIsNoKey(inet, js, ts, m, q, HEAD_KEYS[y]);
      }
      NoKeyNoStep(inet, js, ts, 2 + 2 * q, PartlyHead(m, q + 1), x + 1);
    }
  }

  // ----- the walk over the updates -----

  /**
   * The two loops over the updates, with the C variables i, j and k: the cursor i is stepped on every
   * key that is found and by the width of an object after each of them.
   */
  function UpdatesWalk(inet: Inet, js: string, ts: seq<Token>, i: nat, j: nat, k: nat, width: nat, us: seq<WireEntry>)
    : (r: Option<seq<WireEntry>>)
    requires AllInText(js, ts) && k <= width
    ensures r.Some? ==> |r.value| == |us|
    decreases |us| - j, width - k
  {
    if j >= |us| then Some(us)
    else if k == 0 && i + j + 2 >= |ts| then None
    else if k == width then UpdatesWalk(inet, js, ts, i + width, j + 1, 0, width, us)
    else
      var e := TakeEntry(inet, js, ts, i + j + k + 3, us[j]);
      if e.None? then None
      else UpdatesWalk(inet, js, ts, if e.value.0 then i + 1 else i, j, k + 1, width, us[j := e.value.1])
  }

  /** The `else if`s of the inner loop: was token x a key, and the entry with its value stored. */
  function TakeEntry(inet: Inet, js: string, ts: seq<Token>, x: nat, e: WireEntry): Option<(bool, WireEntry)>
    requires AllInText(js, ts)
  {
    if x >= |ts| then None
    else
      var name := js[ts[x].start..ts[x].end];
      if ts[x].kind != Text || name !in KEYS then Some((false, e))
      else if x + 1 >= |ts| then None
      else
        var r := SetField(inet, js, name, ts[x + 1], e);
        if r.None? then None else Some((true, r.value))
  }

  /** All updates before j, and k fields of update j. */
  function Filled(es: seq<WireEntry>, j: nat, k: nat): (r: seq<WireEntry>)
    ensures |r| == |es|
  {
    seq(|es|, x requires 0 <= x < |es| => if x < j then es[x] else Partly(es[x], if x == j then k else 0))
  }

  lemma EntryTaken(inet: Inet, js: string, ts: seq<Token>, m: WireMessage, j: nat, k: nat)
    requires Genuine(inet, js, ts, m) && AllInText(js, ts) && j < |m.updates| && k < 4
    ensures TakeEntry(inet, js, ts, 14 + 9 * j + 2 * k, Partly(m.updates[j], k)) ==
      Some((true, Partly(m.updates[j], k + 1)))
  {
    hide InetOk, SoundEntry, Survives, FieldsText, EncodeText, MessageTokens, IntText, UriText, SetField, Partly;
    EntryShows(inet, js, ts, m, j, k);
    FieldReadsBack(inet, js, ts[14 + 9 * j + 2 * k], ts[15 + 9 * j + 2 * k], m.updates[j], k);
  }

  lemma WalkObject(inet: Inet, js: string, ts: seq<Token>, i: nat, j: nat, width: nat, us: seq<WireEntry>)
    requires AllInText(js, ts) && j < |us| && width > 0
    ensures UpdatesWalk(inet, js, ts, i, j, width, width, us) ==
      UpdatesWalk(inet, js, ts, i + width, j + 1, 0, width, us)
  {
  }

  lemma WalkField(inet: Inet, js: string, ts: seq<Token>, i: nat, j: nat, k: nat, width: nat, us: seq<WireEntry>,
                  e: WireEntry)
    requires AllInText(js, ts) && j < |us| && k < width && i + j + 2 < |ts|
    requires TakeEntry(inet, js, ts, i + j + k + 3, us[j]) == Some((true, e))
    ensures UpdatesWalk(inet, js, ts, i, j, k, width, us) ==
      UpdatesWalk(inet, js, ts, i + 1, j, k + 1, width, us[j := e])
  {
    hide TakeEntry;
  }

  lemma FilledNext(es: seq<WireEntry>, j: nat, k: nat)
    requires j < |es|
    ensures Filled(es, j, k)[j] == Partly(es[j], k)
    ensures Filled(es, j, k)[j := Partly(es[j], k + 1)] == Filled(es, j, k + 1)
    ensures Filled(es, j, 4) == Filled(es, j + 1, 0)
  {
    assert Partly(es[j], 4) == es[j];
  }

  lemma {:induction false} WalkFills(inet: Inet, js: string, ts: seq<Token>, m: WireMessage, j: nat, k: nat)
    requires Genuine(inet, js, ts, m) && AllInText(js, ts)
    requires j <= |m.updates| && k <= 4 && (j == |m.updates| ==> k == 0)
    ensures UpdatesWalk(inet, js, ts, 11 + 8 * j + k, j, k, 4, Filled(m.updates, j, k)) == Some(m.updates)
    decreases |m.updates| - j, 4 - k
  {
    hide Genuine, TakeEntry, Filled, AllInText;
    if j == |m.updates| {
      AllFilled(m.updates);
    } else {
      hide UpdatesWalk;
      FilledNext(m.updates, j, k);
      if k == 4 {
        WalkObject(inet, js, ts, 11 + 8 * j + 4, j, 4, Filled(m.updates, j, 4));
        WalkFills(inet, js, ts, m, j + 1, 0);
      } else {
        EntryShows(inet, js, ts, m, j, 3);
        EntryTaken(inet, js, ts, m, j, k);
        WalkField(inet, js, ts, 11 + 8 * j + k, j, k, 4, Filled(m.updates, j, k), Partly(m.updates[j], k + 1));
        WalkFills(inet, js, ts, m, j, k + 1);
      }
    }
  }

  lemma AllFilled(es: seq<WireEntry>)
    ensures Filled(es, |es|, 0) == es
  {
  }

  /** The walk from token i on, with what has been stored so far. */
  function HeadWalk(inet: Inet, maxUpdates: nat, js: string, ts: seq<Token>, i: nat, m: WireMessage)
    : Option<WireMessage>
    requires AllInText(js, ts)
    decreases |ts| - i
  {
    if i >= |ts| then Some(m)
    else
      var r := TakeFrom(inet, js, ts, i, m, 0);
      if r.None? then None
      else if JsonEq(js, ts[r.value.0], "updates") then
        var us := UpdatesFrom(inet, maxUpdates, js, ts, r.value.0);
        if us.None? then None else Some(r.value.1.(updates := us.value))
      else HeadWalk(inet, maxUpdates, js, ts, r.value.0 + 1, r.value.1)
  }

  /** What the walk stores when token i is the key of the updates. */
  function UpdatesFrom(inet: Inet, maxUpdates: nat, js: string, ts: seq<Token>, i: nat): Option<seq<WireEntry>>
    requires AllInText(js, ts)
  {
    if i + 2 >= |ts| || ts[i + 1].size > maxUpdates then None
    else UpdatesWalk(inet, js, ts, i, 0, 0, ts[i + 2].size, Blanks(ts[i + 1].size))
  }

  function Blanks(n: nat): (r: seq<WireEntry>)
    ensures |r| == n && forall x :: 0 <= x < n ==> r[x] == NO_ENTRY
  {
    seq(n, _ => NO_ENTRY)
  }

  /** The tokens of a successful parse, and whether they form an object. */
  function Tokens(js: string): (r: Option<seq<Token>>)
    ensures r.Some? ==> AllInText(js, r.value)
  {
    var (p, r) := Run(js, INITIAL, |js|);
    if r.Failed? || p.tokens == [] || p.tokens[0].kind != Object then None
    else
      ParseYieldsForest(js, |js|);
      Some(p.tokens)
  }

  /** What a zeroed message holds after `microswim_decode_message`. */
  function Decode(inet: Inet, maxUpdates: nat, js: string): Option<WireMessage> {
    var ts := Tokens(js);
    if ts.None? then Some(NO_MESSAGE) else HeadWalk(inet, maxUpdates, js, ts.value, 1, NO_MESSAGE)
  }

  // ----- the loops -----

  method TakeInOrder(inet: Inet, js: string, ts: seq<Token>, i: nat, m: WireMessage)
    returns (r: Option<(nat, WireMessage)>)
    requires AllInText(js, ts) && i < |ts|
    ensures r == TakeFrom(inet, js, ts, i, m, 0)
  {
    hide TakeField, AllInText;
    r := TakeOne(inet, js, ts, i, "message", m);
    if r.None? {
      return;
    }
    assert TakeFrom(inet, js, ts, i, m, 0) == TakeFrom(inet, js, ts, r.value.0, r.value.1, 1);
    r := TakeOne(inet, js, ts, r.value.0, "uuid", r.value.1);
    if r.None? {
      return;
    }
    assert TakeFrom(inet, js, ts, i, m, 0) == TakeFrom(inet, js, ts, r.value.0, r.value.1, 2);
    r := TakeOne(inet, js, ts, r.value.0, "uri", r.value.1);
    if r.None? {
      return;
    }
    assert TakeFrom(inet, js, ts, i, m, 0) == TakeFrom(inet, js, ts, r.value.0, r.value.1, 3);
    r := TakeOne(inet, js, ts, r.value.0, "status", r.value.1);
    if r.None? {
      return;
    }
    assert TakeFrom(inet, js, ts, i, m, 0) == TakeFrom(inet, js, ts, r.value.0, r.value.1, 4);
    r := TakeOne(inet, js, ts, r.value.0, "incarnation", r.value.1);
  }

  method DecodeUpdates(inet: Inet, maxUpdates: nat, js: string, ts: seq<Token>, start: nat)
    returns (r: Option<seq<WireEntry>>)
    requires AllInText(js, ts)
    ensures r == UpdatesFrom(inet, maxUpdates, js, ts, start)
  {
    hide TakeEntry, AllInText;
    var i: nat := start;
    if i + 2 >= |ts| || ts[i + 1].size > maxUpdates {
      return None;
    }
    var arraySize, objectSize := ts[i + 1].size, ts[i + 2].size;
    var mu := Blanks(arraySize);
    for j := 0 to arraySize
      invariant |mu| == arraySize
      invariant UpdatesWalk(inet, js, ts, i, j, 0, objectSize, mu) == UpdatesFrom(inet, maxUpdates, js, ts, start)
    {
      if i + j + 2 >= |ts| {
        return None;
      }
      for k := 0 to objectSize
        invariant |mu| == arraySize && (k == 0 ==> i + j + 2 < |ts|)
        invariant UpdatesWalk(inet, js, ts, i, j, k, objectSize, mu) == UpdatesFrom(inet, maxUpdates, js, ts, start)
      {
        var e := TakeEntry(inet, js, ts, i + j + k + 3, mu[j]);
        if e.None? {
          return None;
        }
        mu := mu[j := e.value.1];
        i := if e.value.0 then i + 1 else i;
      }
      i := i + objectSize;
    }
    r := Some(mu);
  }

  method ParseObject(js: string) returns (ts: Option<seq<Token>>, failed: bool)
    ensures ts == Tokens(js)
    ensures failed <==> Run(js, INITIAL, |js|).1.Failed?
  {
    hide WellPlaced, Run;
    var cursor := new J.Cursor();
    var tokens := new Token[|js|];
    InitialStands(js);
    assert tokens[..0] == [];
    var r := J.Parse(cursor, js, tokens, INITIAL);
    RunKeeps(js, INITIAL, |js|);
    failed := r.Failed?;
    if r.Failed? || r.count < 1 || tokens[0].kind != Object {
      return None, failed;
    }
    return Some(tokens[..cursor.toknext]), failed;
  }

  lemma InitialStands(js: string)
    ensures WellPlaced(js, INITIAL)
  {
  }

  method DecodeMessage(inet: Inet, maxUpdates: nat, js: string) returns (r: Option<WireMessage>)
    ensures r == Decode(inet, maxUpdates, js)
  {
    hide AllInText, TakeFrom, UpdatesFrom, JsonEq, Tokens;
    var parsed, _ := ParseObject(js);
    if parsed.None? {
      return Some(NO_MESSAGE);
    }
    var ts := parsed.value;
    var i, m := 1, NO_MESSAGE;
    while i < |ts|
      invariant HeadWalk(inet, maxUpdates, js, ts, i, m) == Decode(inet, maxUpdates, js)
      decreases |ts| - i
    {
      var taken := TakeInOrder(inet, js, ts, i, m);
      if taken.None? {
        return None;
      }
      i, m := taken.value.0, taken.value.1;
      InTextAt(js, ts, i);
      if JsonEq(js, ts[i], "updates") {
        var mu := DecodeUpdates(inet, maxUpdates, js, ts, i);
        return if mu.None? then None else Some(m.(updates := mu.value));
      }
      i := i + 1;
    }
    r := Some(m);
  }

  lemma InTextAt(js: string, ts: seq<Token>, i: nat)
    requires AllInText(js, ts) && i < |ts|
    ensures InText(js, ts[i])
  {
  }

  // ----- the kind of a message, which is read on its own first -----

  const UNKNOWN_KIND: nat := 7
  const MALFORMED_KIND: nat := 8

  /** The number after the first key "message" among the tokens from i on. */
  function KindFrom(js: string, ts: seq<Token>, i: nat): Option<nat>
    requires AllInText(js, ts)
    decreases |ts| - i
  {
    if i >= |ts| then Some(MALFORMED_KIND)
    else if !JsonEq(js, ts[i], "message") then KindFrom(js, ts, i + 1)
    else if i + 1 >= |ts| then None
    else Some(ToEnum(Strtol(js, ts[i + 1].start).0))
  }

  function DecodeKind(js: string): Option<nat> {
    if Run(js, INITIAL, |js|).1.Failed? then Some(MALFORMED_KIND)
    else if Tokens(js).None? then Some(UNKNOWN_KIND)
    else KindFrom(js, Tokens(js).value, 0)
  }

  method DecodeMessageType(js: string) returns (r: Option<nat>)
    ensures r == DecodeKind(js)
  {
    hide AllInText, JsonEq, Tokens, Run;
    var parsed, failed := ParseObject(js);
    if failed {
      return Some(MALFORMED_KIND);
    }
    if parsed.None? {
      return Some(UNKNOWN_KIND);
    }
    var ts := parsed.value;
    for i := 0 to |ts|
      invariant KindFrom(js, ts, i) == DecodeKind(js)
    {
      InTextAt(js, ts, i);
      if JsonEq(js, ts[i], "message") {
        return if i + 1 >= |ts| then None else (InTextAt(js, ts, i + 1); Some(ToEnum(Strtol(js, ts[i + 1].start).0)));
      }
    }
    return Some(MALFORMED_KIND);
  }

  // ----- the round trip -----

  lemma GenuineTokens(inet: Inet, m: WireMessage)
    requires InetOk(inet) && FineMessage(m) && m.updates != []
    ensures var js := EncodeText(inet, m);
      Tokens(js).Some? && !Run(js, INITIAL, |js|).1.Failed? && Genuine(inet, js, Tokens(js).value, m)
  {
    hide InetOk, FineMessage, EncodeText, MessageTokens, Run;
    var js := EncodeText(inet, m);
    EncodedTokens(inet, m, |js|);
    UpdatesShow(inet, js, MessageTokens(inet, m), m);
  }

  lemma UpdatesKeyIsLast(inet: Inet, js: string, ts: seq<Token>, m: WireMessage)
    requires Genuine(inet, js, ts, m) && AllInText(js, ts)
    ensures |ts| > 11 && TakeFrom(inet, js, ts, 11, PartlyHead(m, 5), 0) == Some((11, PartlyHead(m, 5)))
  {
    hide Genuine;
    UpdatesShow(inet, js, ts, m);
    NoKeyNoStep(inet, js, ts, 11, PartlyHead(m, 5), 0);
  }

  /** The walk over the head: one round per field, then the updates. */
  lemma {:induction false} HeadWalks(inet: Inet, maxUpdates: nat, js: string, ts: seq<Token>, m: WireMessage, q: nat)
    requires Genuine(inet, js, ts, m) && AllInText(js, ts) && q <= 5 && (q <= 1 ==> Unmistakable(m))
    ensures HeadWalk(inet, maxUpdates, js, ts, 1 + 2 * q, PartlyHead(m, q)) ==
      if |m.updates| <= maxUpdates then Some(m) else None
    decreases 5 - q
  {
    hide Genuine, JsonEq, TakeFrom, UpdatesFrom, PartlyHead;
    UpdatesShow(inet, js, ts, m);
    if q == 5 {
      UpdatesKeyIsLast(inet, js, ts, m);
      UpdatesRead(inet, maxUpdates, js, ts, m);
    } else {
      RoundTakes(inet, js, ts, m, q, 0);
      if q == 1 { assert "updates" in LATER_KEYS; }
      ValueIsNoKey(inet, js, ts, m, q, "updates");
      HeadWalks(inet, maxUpdates, js, ts, m, q + 1);
    }
  }

  lemma UpdatesRead(inet: Inet, maxUpdates: nat, js: string, ts: seq<Token>, m: WireMessage)
    requires Genuine(inet, js, ts, m) && AllInText(js, ts)
    ensures UpdatesFrom(inet, maxUpdates, js, ts, 11) == if |m.updates| <= maxUpdates then Some(m.updates) else None
    ensures PartlyHead(m, 5).(updates := m.updates) == m
  {
    hide InetOk, FineMessage, EncodeText, MessageTokens;
    UpdatesShow(inet, js, ts, m);
    EntryShows(inet, js, ts, m, 0, 0);
    assert Blanks(|m.updates|) == Filled(m.updates, 0, 0);
    WalkFills(inet, js, ts, m, 0, 0);
  }

  /**
   * The text of a fine message decodes to the message. Only a message without updates is lost, for its
   * text is not closed, and one with more updates than there is room for overruns the array.
   */
  lemma RoundTrip(inet: Inet, maxUpdates: nat, m: WireMessage)
    requires InetOk(inet) && FineMessage(m) && Unmistakable(m)
    ensures Decode(inet, maxUpdates, EncodeText(inet, m)) ==
      if m.updates == [] then Some(NO_MESSAGE) else if |m.updates| <= maxUpdates then Some(m) else None
  {
    hide InetOk, FineMessage, EncodeText, Run, HeadWalk, Genuine, Unmistakable;
    var js := EncodeText(inet, m);
    if m.updates == [] {
      EmptyIsPartial(inet, m, |js|);
    } else {
      GenuineTokens(inet, m);
      HeadWalks(inet, maxUpdates, js, Tokens(js).value, m, 0);
      assert PartlyHead(m, 0) == NO_MESSAGE;
    }
  }

  // ----- a sender whose uuid is a key -----

  /** From the value of the uri on, no token of the head is taken for the key of an address. */
  lemma TailTokens(inet: Inet, js: string, ts: seq<Token>, m: WireMessage, y: nat)
    requires Genuine(inet, js, ts, m) && AllInText(js, ts) && 6 <= y <= 11
    ensures |ts| > 11 && !JsonEq(js, ts[y], "uri")
    ensures y == 11 ==> JsonEq(js, ts[y], "updates") && forall x :: 0 <= x < 5 ==> !JsonEq(js, ts[y], HEAD_KEYS[x])
  {
    hide Genuine;
    UpdatesShow(inet, js, ts, m);
    if y == 6 { ValueIsNoKey(inet, js, ts, m, 2, "uri"); }
    if y == 7 { KeyShown(inet, js, ts, m, 3, "uri"); }
    if y == 8 { ValueIsNoKey(inet, js, ts, m, 3, "uri"); }
    if y == 9 { KeyShown(inet, js, ts, m, 4, "uri"); }
    if y == 10 { ValueIsNoKey(inet, js, ts, m, 4, "uri"); }
  }

  lemma FieldKeepsAddr(inet: Inet, js: string, ts: seq<Token>, i: nat, key: string, m: WireMessage)
    requires AllInText(js, ts) && i < |ts| && (key == "uri" ==> !JsonEq(js, ts[i], "uri"))
    ensures var r := TakeField(inet, js, ts, i, key, m);
      r.Some? ==> r.value.1.head.addr == m.head.addr && r.value.0 == if JsonEq(js, ts[i], key) then i + 1 else i
  {
    hide JsonEq, Strtol, DecodeUri;
  }

  lemma {:induction false} RoundKeepsAddr(inet: Inet, js: string, ts: seq<Token>, m: WireMessage,
                                          i: nat, m0: WireMessage, x: nat)
    requires Genuine(inet, js, ts, m) && AllInText(js, ts) && 6 <= i <= 11 < |ts| && x <= 5
    ensures var r := TakeFrom(inet, js, ts, i, m0, x);
      r.Some? ==> i <= r.value.0 <= 11 && r.value.1.head.addr == m0.head.addr
    decreases 5 - x
  {
    hide Genuine, JsonEq, TakeField;
    if x >= 5 {
    } else {
      TailTokens(inet, js, ts, m, i);
      FieldKeepsAddr(inet, js, ts, i, HEAD_KEYS[x], m0);
      var r := TakeField(inet, js, ts, i, HEAD_KEYS[x], m0);
      if r.Some? { RoundKeepsAddr(inet, js, ts, m, r.value.0, r.value.1, x + 1); }
    }
  }

  lemma {:induction false} WalkKeepsAddr(inet: Inet, maxUpdates: nat, js: string, ts: seq<Token>, m: WireMessage,
                                         i: nat, m0: WireMessage)
    requires Genuine(inet, js, ts, m) && AllInText(js, ts) && 6 <= i <= 11
    ensures var r := HeadWalk(inet, maxUpdates, js, ts, i, m0); r.Some? ==> r.value.head.addr == m0.head.addr
    decreases 11 - i
  {
    hide Genuine, JsonEq, TakeFrom, UpdatesFrom;
    TailTokens(inet, js, ts, m, 11);
    RoundKeepsAddr(inet, js, ts, m, i, m0, 0);
    var r := TakeFrom(inet, js, ts, i, m0, 0);
    if r.None? || r.value.0 >= 11 {
    } else {
      WalkKeepsAddr(inet, maxUpdates, js, ts, m, r.value.0 + 1, r.value.1);
    }
  }

  lemma NoColonNoAddr(inet: Inet)
    ensures DecodeUri(inet, "uri") == Some(NO_ADDR)
  {
    assert forall i :: 0 <= i < |"uri"| ==> !IsColon()("uri"[i]);
  }

  /** The uuid is taken for the key x, and the key of the address for its value. */
  lemma Misstep(inet: Inet, js: string, ts: seq<Token>, m: WireMessage, x: nat)
    requires Genuine(inet, js, ts, m) && AllInText(js, ts) && 2 <= x < 5 && m.head.uuid == HEAD_KEYS[x]
    ensures var r := TakeFrom(inet, js, ts, 3, PartlyHead(m, 1), 0);
      r.Some? ==> r.value.0 == 5 && r.value.1.head.addr == NO_ADDR
    ensures |ts| > 11 && !JsonEq(js, ts[5], "updates")
  {
    hide Genuine, JsonEq, TakeField, TakeFrom, PartlyHead;
    UpdatesShow(inet, js, ts, m);
    TakeUuid(inet, js, ts, m);
    var p := PartlyHead(m, 2);
    UuidShown(inet, js, ts, m);
    LooksLike(js, ts, 4, m.head.uuid);
    SkipTo(inet, js, ts, 4, p, 2, x);
    KeyShown(inet, js, ts, m, 2, "updates");
    StepOn(inet, js, ts, 4, p, x);
    var r := TakeField(inet, js, ts, 4, HEAD_KEYS[x], p);
    MissedAddr(inet, js, ts, m, x);
    if r.Some? {
      forall y | x < y < 5 ensures !JsonEq(js, ts[5], HEAD_KEYS[y]) { KeyShown(inet, js, ts, m, 2, HEAD_KEYS[y]); }
      NoKeyNoStep(inet, js, ts, 5, r.value.1, x + 1);
    }
  }

  lemma TakeUuid(inet: Inet, js: string, ts: seq<Token>, m: WireMessage)
    requires Genuine(inet, js, ts, m) && AllInText(js, ts) && |ts| > 11
    ensures TakeFrom(inet, js, ts, 3, PartlyHead(m, 1), 0) == TakeFrom(inet, js, ts, 4, PartlyHead(m, 2), 2)
  {
    hide Genuine, JsonEq, TakeField, TakeFrom, PartlyHead;
    KeyShown(inet, js, ts, m, 1, "message");
    SkipTo(inet, js, ts, 3, PartlyHead(m, 1), 0, 1);
    FieldTaken(inet, js, ts, m, 1);
    StepOn(inet, js, ts, 3, PartlyHead(m, 1), 1);
  }

  lemma UuidShown(inet: Inet, js: string, ts: seq<Token>, m: WireMessage)
    requires Genuine(inet, js, ts, m) && AllInText(js, ts) && |ts| > 11
    ensures ts[4].kind == Text && js[ts[4].start..ts[4].end] == m.head.uuid
    ensures js[ts[5].start..ts[5].end] == "uri"
  {
    hide InetOk, FineMessage, FieldsText, EncodeText, MessageTokens, IntText, UriText;
    HeadShows(inet, js, ts, m, 1);
    HeadShows(inet, js, ts, m, 2);
  }

  /** The `if`s for the keys x..y do not apply. */
  lemma {:induction false} SkipTo(inet: Inet, js: string, ts: seq<Token>, i: nat, m: WireMessage, x: nat, y: nat)
    requires AllInText(js, ts) && i < |ts| && x <= y <= 5
    requires forall z :: x <= z < y ==> !JsonEq(js, ts[i], HEAD_KEYS[z])
    ensures TakeFrom(inet, js, ts, i, m, x) == TakeFrom(inet, js, ts, i, m, y)
    decreases y - x
  {
    hide JsonEq;
    if x >= y {
    } else {
      SkipTo(inet, js, ts, i, m, x + 1, y);
    }
  }

  lemma StepOn(inet: Inet, js: string, ts: seq<Token>, i: nat, m: WireMessage, x: nat)
    requires AllInText(js, ts) && i < |ts| && x < 5
    ensures var r := TakeField(inet, js, ts, i, HEAD_KEYS[x], m);
      TakeFrom(inet, js, ts, i, m, x) == if r.None? then None else TakeFrom(inet, js, ts, r.value.0, r.value.1, x + 1)
  {
    hide TakeField;
  }

  lemma MissedAddr(inet: Inet, js: string, ts: seq<Token>, m: WireMessage, x: nat)
    requires Genuine(inet, js, ts, m) && AllInText(js, ts) && 2 <= x < 5 && m.head.uuid == HEAD_KEYS[x] && |ts| > 11
    ensures var r := TakeField(inet, js, ts, 4, HEAD_KEYS[x], PartlyHead(m, 2));
      r.Some? ==> r.value.0 == 5 && r.value.1.head.addr == NO_ADDR
  {
    hide Genuine, Strtol, DecodeUri;
    UuidShown(inet, js, ts, m);
    NoColonNoAddr(inet);
  }

  /** If the sender's uuid is one of the later keys, its address is lost. */
  lemma Misread(inet: Inet, maxUpdates: nat, js: string, ts: seq<Token>, m: WireMessage)
    requires Genuine(inet, js, ts, m) && AllInText(js, ts) && !Unmistakable(m)
    ensures var r := HeadWalk(inet, maxUpdates, js, ts, 1, NO_MESSAGE); r.Some? ==> r.value.head.addr == NO_ADDR
  {
    hide Genuine, JsonEq, TakeFrom, UpdatesFrom, Partly;
    UpdatesShow(inet, js, ts, m);
    assert PartlyHead(m, 0) == NO_MESSAGE by { BlankPart(m.head); }
    RoundTakes(inet, js, ts, m, 0, 0);
    ValueIsNoKey(inet, js, ts, m, 0, "updates");
    BlankPart(m.head);
    if m.head.uuid == "updates" {
      TakeUuid(inet, js, ts, m);
      UuidShown(inet, js, ts, m);
      LooksLike(js, ts, 4, "updates");
      NoKeyNoStep(inet, js, ts, 4, PartlyHead(m, 2), 2);
    } else {
      var x := if m.head.uuid == "uri" then 2 else if m.head.uuid == "status" then 3 else 4;
      Misstep(inet, js, ts, m, x);
      var r := TakeFrom(inet, js, ts, 3, PartlyHead(m, 1), 0);
      if r.Some? { WalkKeepsAddr(inet, maxUpdates, js, ts, m, 6, r.value.1); }
    }
  }

  lemma BlankPart(e: WireEntry)
    ensures Partly(e, 0) == NO_ENTRY && Partly(e, 1).addr == NO_ADDR
  {
  }

  lemma LooksLike(js: string, ts: seq<Token>, i: nat, key: string)
    requires AllInText(js, ts) && i < |ts| && ts[i].kind == Text && js[ts[i].start..ts[i].end] == key
    ensures forall other :: JsonEq(js, ts[i], other) <==> other == key
  {
  }

  /** The kind is read on its own first; it survives exactly when the message does not come without updates. */
  lemma KindReadsBack(inet: Inet, m: WireMessage)
    requires InetOk(inet) && FineMessage(m)
    ensures DecodeKind(EncodeText(inet, m)) == Some(if m.updates == [] then MALFORMED_KIND else m.kind)
  {
    hide InetOk, EncodeText, Run, Genuine, IntText, Tokens, JsonEq, SoundEntry, Survives;
    var js := EncodeText(inet, m);
    if m.updates == [] {
      EmptyIsPartial(inet, m, |js|);
    } else {
      GenuineTokens(inet, m);
      var ts := Tokens(js).value;
      UpdatesShow(inet, js, ts, m);
      NoTextFirst(js, ts);
      KeyShown(inet, js, ts, m, 0, "message");
      HeadShows(inet, js, ts, m, 0);
      HeadKind(inet, m);
      NumberShown(js, ts[1], ts[2], "message", Low32(m.kind));
      EnumSurvives(m.kind);
      assert KindFrom(js, ts, 0) == KindFrom(js, ts, 1);
    }
  }

  lemma HeadKind(inet: Inet, m: WireMessage)
    requires m.kind < TWO_32
    ensures HeadFields(inet, m)[0] == Field("message", IntText(Low32(m.kind)), false)
    ensures -LONG_MAX <= Low32(m.kind) <= LONG_MAX
  {
  }

  lemma NoTextFirst(js: string, ts: seq<Token>)
    requires AllInText(js, ts) && ts != [] && ts[0].kind == Object
    ensures !JsonEq(js, ts[0], "message")
  {
  }

  // ----- incarnations are printed with %d -----

  function Narrow(e: WireEntry): WireEntry {
    e.(incarnation := ToSize(Low32(e.incarnation)))
  }

  function NarrowList(es: seq<WireEntry>): (r: seq<WireEntry>)
    ensures |r| == |es| && forall i :: 0 <= i < |r| ==> r[i] == Narrow(es[i])
  {
    if es == [] then [] else [Narrow(es[0])] + NarrowList(es[1..])
  }

  /** What is left of a message of which only the low 32 bits of every incarnation are sent. */
  function Narrowed(m: WireMessage): WireMessage {
    WireMessage(m.kind, Narrow(m.head), NarrowList(m.updates))
  }

  lemma NarrowEntry(inet: Inet, e: WireEntry)
    requires SoundEntry(e)
    ensures FineEntry(Narrow(e)) && EntryFields(inet, Narrow(e)) == EntryFields(inet, e)
    ensures Narrow(e) == e <==> Survives(e.incarnation)
  {
    SizeSurvivesIff(e.incarnation);
    NarrowTwice(e.incarnation);
  }

  lemma NarrowTwice(n: nat)
    ensures Low32(ToSize(Low32(n))) == Low32(n) && Survives(ToSize(Low32(n)))
  {
    var v := Low32(n);
    assert 0 - TWO_31 <= v < TWO_31;
    if v < 0 {
      assert ToSize(v) == v + TWO_64;
      assert v + TWO_64 == (v + TWO_32) + (TWO_32 - 1) * TWO_32;
      assert (v + TWO_64) % TWO_32 == v + TWO_32;
    }
  }

  lemma {:induction false} NarrowListText(inet: Inet, es: seq<WireEntry>)
    requires forall i :: 0 <= i < |es| ==> SoundEntry(es[i])
    ensures ListText(inet, NarrowList(es)) == ListText(inet, es)
    decreases |es|
  {
    hide FieldsText, EntryFields, SoundEntry, Narrow;
    if es == [] {
    } else {
      NarrowEntry(inet, es[0]);
      NarrowListText(inet, es[1..]);
      assert NarrowList(es)[1..] == NarrowList(es[1..]);
    }
  }

  lemma NarrowedText(inet: Inet, m: WireMessage)
    requires SoundMessage(m)
    ensures EncodeText(inet, Narrowed(m)) == EncodeText(inet, m) && FineMessage(Narrowed(m))
    ensures Narrowed(m) == m <==> AllSurvive(m)
  {
    hide FieldsText, SoundEntry, ListText, Survives, ToSize, Low32;
    NarrowEntry(inet, m.head);
    NarrowListText(inet, m.updates);
    var n, es := Narrowed(m), NarrowList(m.updates);
    assert n.head == Narrow(m.head) && n.updates == es && n.head.uuid == m.head.uuid;
    forall i | 0 <= i < |es|
      ensures FineEntry(es[i]) && (es[i] == m.updates[i] <==> Survives(m.updates[i].incarnation))
    {
      NarrowEntry(inet, m.updates[i]);
    }
    assert forall i :: 0 <= i < |es| ==> SoundEntry(n.updates[i]) && Survives(n.updates[i].incarnation);
    assert SoundMessage(n) && AllSurvive(n);
    assert HeadFields(inet, n) == HeadFields(inet, m);
    if AllSurvive(m) {
      assert es == m.updates;
    }
    if Narrowed(m) == m {
      assert Narrow(m.head) == m.head && es == m.updates;
      forall i | 0 <= i < |m.updates| ensures Survives(m.updates[i].incarnation) { assert es[i] == m.updates[i]; }
    }
  }

  /** What the decoder makes of a message that has updates and a sender named like a key. */
  lemma MisreadText(inet: Inet, maxUpdates: nat, m: WireMessage)
    requires InetOk(inet) && FineMessage(m) && m.updates != [] && !Unmistakable(m)
    ensures var r := Decode(inet, maxUpdates, EncodeText(inet, m)); r.Some? ==> r.value.head.addr == NO_ADDR
  {
    hide InetOk, FineMessage, EncodeText, Run, HeadWalk, Genuine, Unmistakable;
    var js := EncodeText(inet, m);
    GenuineTokens(inet, m);
    Misread(inet, maxUpdates, js, Tokens(js).value, m);
  }

  /**
   * A well-formed message comes back if and only if it has at least one update, no more than there is room
   * for, every incarnation in it lies within the signed 32-bit range, and its sender is not named like a key.
   */
  lemma RoundTripIff(inet: Inet, maxUpdates: nat, m: WireMessage)
    requires InetOk(inet) && SoundMessage(m)
    ensures Decode(inet, maxUpdates, EncodeText(inet, m)) == Some(m) <==>
      1 <= |m.updates| <= maxUpdates && AllSurvive(m) && Unmistakable(m)
    ensures 1 <= |m.updates| <= maxUpdates && Unmistakable(m) ==>
      Decode(inet, maxUpdates, EncodeText(inet, m)) == Some(Narrowed(m))
  {
    hide InetOk, FineMessage, EncodeText, Decode, AllSurvive, Narrow, Unmistakable;
    var n := Narrowed(m);
    NarrowedText(inet, m);
    SameName(m);
    NotBlank(m);
    if Unmistakable(m) || m.updates == [] {
      if m.updates == [] { EmptyDecodes(inet, maxUpdates, n); } else { RoundTrip(inet, maxUpdates, n); }
    } else {
      MisreadText(inet, maxUpdates, n);
    }
  }

  lemma EmptyDecodes(inet: Inet, maxUpdates: nat, m: WireMessage)
    requires InetOk(inet) && FineMessage(m) && m.updates == []
    ensures Decode(inet, maxUpdates, EncodeText(inet, m)) == Some(NO_MESSAGE)
  {
    hide InetOk, FineMessage, EncodeText, Run, HeadWalk;
    EmptyIsPartial(inet, m, |EncodeText(inet, m)|);
  }

  lemma SameName(m: WireMessage)
    ensures Unmistakable(Narrowed(m)) == Unmistakable(m) && |Narrowed(m).updates| == |m.updates|
  {
  }

  /** No well-formed message equals a zeroed one: its address is of the internet family. */
  lemma NotBlank(m: WireMessage)
    requires SoundMessage(m)
    ensures m != NO_MESSAGE && m.head.addr != NO_ADDR
  {
  }
}

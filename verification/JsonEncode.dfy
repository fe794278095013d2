/** The printer of src/encode_json.c, format string by format string. */
module JsonEncode {
  import opened Types
  import opened Numbers
  import opened JsonText

  method PrintHead(inet: Inet, m: WireMessage) returns (text: string)
    ensures text == HeadText(inet, m)
  {
    text := "{\"message\": " + IntText(Low32(m.kind)) + ", \"uuid\": \"" + m.head.uuid
          + "\", \"uri\": \"" + UriText(inet, m.head.addr) + "\", \"status\": " + IntText(Low32(m.head.status))
          + ", \"incarnation\": " + IntText(Low32(m.head.incarnation)) + ", \"updates\": [";
    hide *;
    HeadPrinted(inet, m);
  }

  method PrintEntry(inet: Inet, e: WireEntry) returns (text: string)
    ensures text == EntryText(inet, e)
  {
    text := "{\"uuid\": \"" + e.uuid + "\", \"uri\": \"" + UriText(inet, e.addr) + "\", \"status\": "
          + IntText(Low32(e.status)) + ", \"incarnation\": " + IntText(Low32(e.incarnation)) + "}";
    hide *;
    EntryPrinted(inet, e);
  }

  /** What a buffer of `size` characters shows of a text printed into it. */
  function Cut(text: string, size: nat): string {
    text[..if |text| < size then |text| else if size == 0 then 0 else size - 1]
  }

  /** One `snprintf` behind what is there already; None where the wrapped size lets it write beyond the buffer. */
  method Print(buffer: string, remainder: nat, text: string, size: nat, ghost so: string)
    returns (r: Option<(string, nat)>)
    requires buffer == Cut(so, size) && remainder == |so|
    ensures r == if |so| > size then None else Some((Cut(so + text, size), |so + text|))
  {
    if remainder > size {
      return None;
    }
    var room := size - remainder;
    var kept := if |text| < room then |text| else if room == 0 then 0 else room - 1;
    assert buffer + text[..kept] == Cut(so + text, size);
    return Some((buffer + text[..kept], remainder + |text|));
  }

  /**
   * `microswim_encode_message`: the text cut to the buffer, and its full length. Only the closing brackets
   * may be printed when the buffer is already overfull, or else the code writes beyond it.
   */
  method EncodeMessage(inet: Inet, m: WireMessage, size: nat) returns (r: Option<(string, nat)>)
    ensures var text := EncodeText(inet, m);
      r == if m.updates != [] && |text| - 2 > size then None else Some((Cut(text, size), |text|))
  {
    hide IntText, UriText, HeadText, EntryText, Cut;
    ghost var so := HeadText(inet, m);
    var head := PrintHead(inet, m);
    assert "" + head == head;
    NothingPrinted(size);
    r := Print("", 0, head, size, "");
    assert m.updates[0..] == m.updates;
    var i := 0;
    while i < |m.updates|
      invariant i <= |m.updates| && r == Some((Cut(so, size), |so|))
      invariant so + ListText(inet, m.updates[i..]) == EncodeText(inet, m)
      invariant i == |m.updates| > 0 ==> |EncodeText(inet, m)| - 2 <= size
    {
      var text := PrintEntry(inet, m.updates[i]);
      var separator := if i < |m.updates| - 1 then "," else "]}";
      ghost var rest := m.updates[i + 1..];
      assert m.updates[i..] == [m.updates[i]] + rest;
      ListStep(inet, m.updates[i], rest);
      ListIsLong(inet, m.updates[i..]);
      if rest != [] { ListIsLong(inet, rest); }
      Regroup(so, text, separator, ListText(inet, rest));
      r := Print(r.value.0, r.value.1, text, size, so);
      if r.None? {
        return;
      }
      so := so + text;
      r := Print(r.value.0, r.value.1, separator, size, so);
      if r.None? {
        return;
      }
      so := so + separator;
      i := i + 1;
    }
    assert so + "" == so;
  }

  lemma NothingPrinted(size: nat)
    ensures Cut("", size) == ""
  {
  }

  lemma ListStep(inet: Inet, e: WireEntry, rest: seq<WireEntry>)
    ensures ListText(inet, [e] + rest) ==
      (EntryText(inet, e) + (if rest == [] then "]}" else ",")) + ListText(inet, rest)
  {
    hide EntryText;
    assert ([e] + rest)[1..] == rest;
  }

  lemma Next(p: string, f: Field, rest: seq<Field>)
    requires rest != []
    ensures p + FieldsText([f] + rest) == ((p + FieldText(f)) + ", ") + FieldsText(rest)
  {
    hide FieldText;
    var t, r := FieldText(f), FieldsText(rest);
    assert ([f] + rest)[1..] == rest;
    assert FieldsText([f] + rest) == (t + ", ") + r by { if |rest| == 1 { assert FieldsText(rest) == r; } }
    Regroup(p, t, ", ", r);
  }

  lemma Regroup(a: string, b: string, c: string, d: string)
    ensures a + ((b + c) + d) == ((a + b) + c) + d
  {
  }

  /** The end of one printed field, the separator and the key of the next one make one piece of a format. */
  lemma Weld(w: string, a: string, f: Field, between: string)
    requires between == a + ", " + ("\"" + f.key + "\": " + if f.quoted then "\"" else "")
    ensures ((w + a) + ", ") + FieldText(f) == ((w + between) + f.value) + if f.quoted then "\"" else ""
  {
    var key := "\"" + f.key + "\": ";
    if f.quoted { Welded(w, a, ", ", key, "\"", f.value, "\""); } else { Welded(w, a, ", ", key, "", f.value, ""); }
    assert "" + f.value + "" == f.value;
  }

  lemma Welded(w: string, a: string, s: string, k: string, q: string, v: string, e: string)
    ensures ((w + a) + s) + (k + (q + v + e)) == ((w + (a + s + (k + q))) + v) + e
  {
  }

  lemma Begin(p: string, f: Field, start: string)
    requires start == p + ("\"" + f.key + "\": " + if f.quoted then "\"" else "")
    ensures p + FieldText(f) == (start + f.value) + if f.quoted then "\"" else ""
  {
    var key := "\"" + f.key + "\": ";
    if f.quoted { Welded(p, "", "", key, "\"", f.value, "\""); } else { Welded(p, "", "", key, "", f.value, ""); }
    assert "" + f.value + "" == f.value && (p + "") + "" == p && "" + "" + (key + "\"") == key + "\"";
    assert "" + "" + (key + "") == key && key + "" == key;
  }

  lemma EntryPrinted(inet: Inet, e: WireEntry)
    ensures EntryText(inet, e) ==
      "{\"uuid\": \"" + e.uuid + "\", \"uri\": \"" + UriText(inet, e.addr) + "\", \"status\": "
      + IntText(Low32(e.status)) + ", \"incarnation\": " + IntText(Low32(e.incarnation)) + "}"
  {
    hide IntText, UriText, FieldsText, FieldText;
    var a, fs := Field("uuid", e.uuid, true), LaterFields(inet, e);
    assert EntryFields(inet, e) == [a] + fs;
    Next("{", a, fs);
    Begin("{", a, "{\"uuid\": \"");
    LaterPrinted(inet, e, "{\"uuid\": \"" + e.uuid);
  }

  /** The fields that follow a uuid. */
  function LaterFields(inet: Inet, e: WireEntry): (r: seq<Field>)
    ensures |r| == 3
  {
    [Field("uri", UriText(inet, e.addr), true), Field("status", IntText(Low32(e.status)), false),
     Field("incarnation", IntText(Low32(e.incarnation)), false)]
  }

  lemma LaterPrinted(inet: Inet, e: WireEntry, w: string)
    ensures ((w + "\"") + ", ") + FieldsText(LaterFields(inet, e)) ==
      w + "\", \"uri\": \"" + UriText(inet, e.addr) + "\", \"status\": "
      + IntText(Low32(e.status)) + ", \"incarnation\": " + IntText(Low32(e.incarnation))
  {
    hide IntText, UriText, FieldText, FieldsText;
    var fs := LaterFields(inet, e);
    var b := fs[0];
    assert fs == [b] + [fs[1], fs[2]];
    Next((w + "\"") + ", ", b, [fs[1], fs[2]]);
    Weld(w, "\"", b, "\", \"uri\": \"");
    LastPrinted(w + "\", \"uri\": \"" + b.value, fs[1], fs[2]);
  }

  lemma LastPrinted(w: string, c: Field, d: Field)
    requires c.key == "status" && d.key == "incarnation" && !c.quoted && !d.quoted
    ensures ((w + "\"") + ", ") + FieldsText([c, d]) ==
      w + "\", \"status\": " + c.value + ", \"incarnation\": " + d.value
  {
    hide FieldText, FieldsText;
    assert [c, d] == [c] + [d];
    Next((w + "\"") + ", ", c, [d]);
    Weld(w, "\"", c, "\", \"status\": ");
    var w2 := w + "\", \"status\": " + c.value;
    assert w2 + "" == w2;
    Only(d);
    Weld(w2, "", d, ", \"incarnation\": ");
    var w3 := w2 + ", \"incarnation\": " + d.value;
    assert w3 + "" == w3;
  }

  lemma Only(f: Field)
    ensures FieldsText([f]) == FieldText(f)
  {
  }

  lemma HeadPrinted(inet: Inet, m: WireMessage)
    ensures HeadText(inet, m) ==
      "{\"message\": " + IntText(Low32(m.kind)) + ", \"uuid\": \"" + m.head.uuid
      + "\", \"uri\": \"" + UriText(inet, m.head.addr) + "\", \"status\": " + IntText(Low32(m.head.status))
      + ", \"incarnation\": " + IntText(Low32(m.head.incarnation)) + ", \"updates\": ["
  {
    hide IntText, UriText, FieldsText, FieldText;
    var k, a := Field("message", IntText(Low32(m.kind)), false), Field("uuid", m.head.uuid, true);
    var fs := LaterFields(inet, m.head);
    assert EntryFields(inet, m.head) == [a] + fs;
    assert HeadFields(inet, m) == [k] + ([a] + fs);
    Next("{", k, [a] + fs);
    Begin("{", k, "{\"message\": ");
    var w := "{\"message\": " + k.value;
    assert w + "" == w;
    Next(w + ", ", a, fs);
    Weld(w, "", a, ", \"uuid\": \"");
    LaterPrinted(inet, m.head, w + ", \"uuid\": \"" + m.head.uuid);
  }
}

/** The JSON text of a message (src/encode_json.c) and the pieces it is made of. */
module JsonText {
  import opened Types
  import opened Seqs
  import opened Numbers

  /** An entry as the encoder sees it; status and message kinds are the enumeration's numbers. */
  datatype WireEntry = WireEntry(uuid: string, addr: Addr, status: nat, incarnation: nat)

  datatype WireMessage = WireMessage(kind: nat, head: WireEntry, updates: seq<WireEntry>)

  const NO_ENTRY: WireEntry := WireEntry("", NO_ADDR, 0, 0)
  const NO_MESSAGE: WireMessage := WireMessage(0, NO_ENTRY, [])

  const AF_INET: nat := 2

  /** `UUID_SIZE` without the terminating NUL. */
  const UUID_LENGTH: nat := 36

  /** The conversions of IPv4 addresses to and from text, which the system provides. */
  datatype Inet = Inet(ntop: nat -> string, pton: string -> Option<nat>)

  /** A character that needs no escape and closes nothing. */
  predicate Plain(c: char) {
    c != '"' && c != '\\' && c != '\0'
  }

  ghost predicate InetOk(inet: Inet) {
    forall ip: nat :: ip < TWO_32 ==>
      && inet.pton(inet.ntop(ip)) == Some(ip)
      && |inet.ntop(ip)| <= 15
      && forall i :: 0 <= i < |inet.ntop(ip)| ==> inet.ntop(ip)[i] != ':' && Plain(inet.ntop(ip)[i])
  }

  // ----- printing -----

  function UriText(inet: Inet, a: Addr): string {
    inet.ntop(a.ip) + ":" + Digits(a.port)
  }

  /** One `"key": value` pair. */
  datatype Field = Field(key: string, value: string, quoted: bool)

  function FieldText(f: Field): string {
    "\"" + f.key + "\": " + if f.quoted then "\"" + f.value + "\"" else f.value
  }

  function FieldsText(fs: seq<Field>): string {
    if fs == [] then "" else if |fs| == 1 then FieldText(fs[0]) else FieldText(fs[0]) + ", " + FieldsText(fs[1..])
  }

  lemma Glued(a: string, b: string, c: string)
    ensures (a + b) + c == a + (b + c)
  {
  }

  lemma FieldsUnfold(fs: seq<Field>)
    requires fs != []
    ensures FieldsText(fs) == if |fs| == 1 then FieldText(fs[0]) else FieldText(fs[0]) + (", " + FieldsText(fs[1..]))
  {
    hide FieldText;
    if |fs| > 1 { Glued(FieldText(fs[0]), ", ", FieldsText(fs[1..])); }
  }

  function EntryFields(inet: Inet, e: WireEntry): seq<Field> {
    [Field("uuid", e.uuid, true),
     Field("uri", UriText(inet, e.addr), true),
     Field("status", IntText(Low32(e.status)), false),
     Field("incarnation", IntText(Low32(e.incarnation)), false)]
  }

  function HeadFields(inet: Inet, m: WireMessage): seq<Field> {
    [Field("message", IntText(Low32(m.kind)), false)] + EntryFields(inet, m.head)
  }

  function EntryText(inet: Inet, e: WireEntry): string {
    "{" + FieldsText(EntryFields(inet, e)) + "}"
  }

  function HeadText(inet: Inet, m: WireMessage): string {
    "{" + FieldsText(HeadFields(inet, m)) + ", \"updates\": ["
  }

  /** The updates with their separators; the closing brackets come with the last of them. */
  function ListText(inet: Inet, es: seq<WireEntry>): string {
    if es == [] then ""
    else if |es| == 1 then EntryText(inet, es[0]) + "]}"
    else EntryText(inet, es[0]) + "," + ListText(inet, es[1..])
  }

  function EncodeText(inet: Inet, m: WireMessage): string {
    HeadText(inet, m) + ListText(inet, m.updates)
  }

  /** The keys that the decoder looks for in an entry, and in the head of a message. */
  const KEYS: seq<string> := ["uuid", "uri", "status", "incarnation"]

  const HEAD_KEYS: seq<string> := ["message", "uuid", "uri", "status", "incarnation"]

  // ----- which messages can be told apart in this format -----

  /** What a sender puts into an entry. */
  ghost predicate SoundEntry(e: WireEntry) {
    && |e.uuid| <= UUID_LENGTH && (forall i :: 0 <= i < |e.uuid| ==> Plain(e.uuid[i]))
    && e.addr.family == AF_INET && 1 <= e.addr.port <= 65535 && e.addr.ip < TWO_32
    && e.status < TWO_32 && e.incarnation < TWO_64
  }

  /** The incarnation is still the same after it has been printed with `%d`. */
  predicate Survives(incarnation: nat) {
    incarnation < TWO_31 || TWO_64 - TWO_31 <= incarnation < TWO_64
  }

  ghost predicate FineEntry(e: WireEntry) {
    SoundEntry(e) && Survives(e.incarnation)
  }

  ghost predicate SoundMessage(m: WireMessage) {
    && m.kind < TWO_32 && SoundEntry(m.head)
    && forall i :: 0 <= i < |m.updates| ==> SoundEntry(m.updates[i])
  }

  predicate AllSurvive(m: WireMessage) {
    && Survives(m.head.incarnation)
    && forall i :: 0 <= i < |m.updates| ==> Survives(m.updates[i].incarnation)
  }

  /** The keys that the decoder still looks for when it has stored the sender's uuid and stands on it. */
  const LATER_KEYS: seq<string> := ["uri", "status", "incarnation", "updates"]

  /** The sender's uuid cannot be mistaken for a key. */
  predicate Unmistakable(m: WireMessage) {
    m.head.uuid !in LATER_KEYS
  }

  ghost predicate FineMessage(m: WireMessage) {
    SoundMessage(m) && AllSurvive(m)
  }

  ghost predicate PlainField(f: Field) {
    && (forall i :: 0 <= i < |f.key| ==> Plain(f.key[i]))
    && (forall i :: 0 <= i < |f.value| ==> Plain(f.value[i]))
    && (!f.quoted ==> f.value != [] && forall i :: 0 <= i < |f.value| ==> IsDigit(f.value[i]) || f.value[i] == '-')
  }

  lemma UriIsPlain(inet: Inet, a: Addr)
    requires InetOk(inet) && a.ip < TWO_32
    ensures forall i :: 0 <= i < |UriText(inet, a)| ==> Plain(UriText(inet, a)[i])
  {
    var ip, port := inet.ntop(a.ip), Digits(a.port);
    forall i | 0 <= i < |UriText(inet, a)| ensures Plain(UriText(inet, a)[i]) {
      if i > |ip| { assert UriText(inet, a)[i] == port[i - |ip| - 1]; }
    }
  }

  lemma EntryFieldsPlain(inet: Inet, e: WireEntry)
    requires InetOk(inet) && FineEntry(e)
    ensures forall i :: 0 <= i < 4 ==> PlainField(EntryFields(inet, e)[i])
  {
    hide IntText, UriText;
    UriIsPlain(inet, e.addr);
  }

  // ----- reading a uri -----

  function IsColon(): char -> bool {
    (c: char) => c == ':'
  }

  /** None where the code would overrun its local buffers. */
  function DecodeUri(inet: Inet, text: string): Option<Addr> {
    var colon := First(text, IsColon());
    if colon.None? then Some(NO_ADDR)
    else
      var ip, port := text[..colon.value], text[colon.value + 1..];
      if |ip| >= 64 || |port| >= 8 then None
      else
        var (v, e) := Strtol(port, 0);
        if e != |port| || v <= 0 || v > 65535 || inet.pton(ip).None? then Some(NO_ADDR)
        else Some(Addr(AF_INET, v, inet.pton(ip).value))
  }

  lemma ShortPort(n: nat)
    requires n <= 65535
    ensures |Digits(n)| <= 5
  {
    hide Digits, PowerOfTen;
    Powers();
    FewDigits(n, 5);
  }

  lemma Powers()
    ensures PowerOfTen(1) == 10 && PowerOfTen(5) == 100_000 && PowerOfTen(10) == 10_000_000_000
  {
    assert PowerOfTen(2) == 100;
    assert PowerOfTen(3) == 1_000;
    assert PowerOfTen(4) == 10_000;
    assert PowerOfTen(5) == 100_000;
    assert PowerOfTen(6) == 1_000_000;
    assert PowerOfTen(7) == 10_000_000;
    assert PowerOfTen(8) == 100_000_000;
    assert PowerOfTen(9) == 1_000_000_000;
  }

  lemma UriReadsBack(inet: Inet, a: Addr)
    requires InetOk(inet) && a.family == AF_INET && 1 <= a.port <= 65535 && a.ip < TWO_32
    ensures DecodeUri(inet, UriText(inet, a)) == Some(a)
    ensures |UriText(inet, a)| <= 21 && ':' in UriText(inet, a)
  {
    hide Digits, Strtol;
    var ip, port := inet.ntop(a.ip), Digits(a.port);
    var text := UriText(inet, a);
    FirstIs(text, IsColon(), |ip|);
    assert text[..|ip|] == ip && text[|ip| + 1..] == port;
    ShortPort(a.port);
    assert port[0..|port|] == port;
    StrtolReads(port, 0, a.port);
  }

  // ----- how long a text can be -----

  lemma ListIsLong(inet: Inet, es: seq<WireEntry>)
    requires es != []
    ensures |ListText(inet, es)| >= 2
    ensures |ListText(inet, es)| >= 2 && ListText(inet, es)[|ListText(inet, es)| - 2..] == "]}"
    decreases |es|
  {
    hide EntryText;
    if |es| > 1 {
      ListIsLong(inet, es[1..]);
      assert ListText(inet, es) == EntryText(inet, es[0]) + "," + ListText(inet, es[1..]);
    }
  }

  /** One digit for kind or status, and an incarnation that prints without a sign. */
  predicate Short(kind: nat, e: WireEntry) {
    kind < 10 && e.status < 10 && e.incarnation < TWO_31
  }

  lemma ShortNumbers(digit: nat, incarnation: nat)
    requires digit < 10 && incarnation < TWO_31
    ensures |IntText(Low32(digit))| == 1 && |IntText(Low32(incarnation))| <= 10
  {
    hide Low32, Digits, PowerOfTen;
    Powers();
    SmallLow32(incarnation);
    SmallLow32(digit);
    FewDigits(incarnation, 10);
    FewDigits(digit, 1);
  }

  lemma SmallLow32(n: nat)
    requires n < TWO_31
    ensures Low32(n) == n
  {
  }

  lemma EntryFieldsLength(inet: Inet, e: WireEntry)
    requires InetOk(inet) && SoundEntry(e) && Short(0, e)
    ensures |FieldsText(EntryFields(inet, e))| <= 118
  {
    hide IntText, UriText, Low32, InetOk;
    UriReadsBack(inet, e.addr);
    ShortNumbers(e.status, e.incarnation);
    var fs := EntryFields(inet, e);
    assert |FieldsText(fs[3..])| == |FieldText(fs[3])|;
    assert fs[2..][1..] == fs[3..] && fs[1..][1..] == fs[2..];
    assert |FieldsText(fs[2..])| == |FieldText(fs[2])| + 2 + |FieldsText(fs[3..])|;
    assert |FieldsText(fs[1..])| == |FieldText(fs[1])| + 2 + |FieldsText(fs[2..])|;
  }

  lemma HeadLength(inet: Inet, m: WireMessage)
    requires InetOk(inet) && SoundEntry(m.head) && Short(m.kind, m.head)
    ensures |HeadText(inet, m)| <= 147
  {
    hide IntText, UriText, Low32, InetOk, SoundEntry;
    EntryFieldsLength(inet, m.head);
    ShortNumbers(m.kind, 0);
    assert HeadFields(inet, m)[1..] == EntryFields(inet, m.head);
  }

  lemma {:induction false} ListLength(inet: Inet, es: seq<WireEntry>)
    requires InetOk(inet) && es != []
    requires forall i :: 0 <= i < |es| ==> SoundEntry(es[i]) && Short(0, es[i])
    ensures |ListText(inet, es)| <= 121 * |es| + 1
    decreases |es|
  {
    hide InetOk, SoundEntry, Short, FieldsText, EntryFields;
    EntryFieldsLength(inet, es[0]);
    if |es| <= 1 {
    } else {
      ListLength(inet, es[1..]);
    }
  }
}

/** The two canonical encodings a signature is taken over: Adyen's colon joined fields and Stripe's
    signature header. */
module Signing {
  import opened Wrappers
  import opened Decimal

  // ------------------------------------------------------------------- Adyen

  const ADYEN_SIGNED_FIELDS: seq<string> :=
    ["pspReference", "originalReference", "merchantAccountCode", "merchantReference",
     "value", "currency", "eventCode", "success"]

  const VALUE := "value"
  const CURRENCY := "currency"

  /** str.replace for a one character pattern. */
  function ReplaceAll(s: string, c: char, text: string): string {
    if s == "" then "" else (if s[0] == c then text else [s[0]]) + ReplaceAll(s[1..], c, text)
  }

  function Escape(value: string): string {
    ReplaceAll(ReplaceAll(value, '\\', "\\\\"), ':', "\\:")
  }

  function EscapeChar(c: char): string {
    if c == '\\' || c == ':' then ['\\', c] else [c]
  }

  function EscapeEach(value: string): string {
    if value == "" then "" else EscapeChar(value[0]) + EscapeEach(value[1..])
  }

  lemma {:induction false} ReplaceAllConcat(s: string, t: string, c: char, text: string)
    ensures ReplaceAll(s + t, c, text) == ReplaceAll(s, c, text) + ReplaceAll(t, c, text)
  {
    if s == "" {
      assert s + t == t;
    } else {
      assert (s + t)[1..] == s[1..] + t;
      ReplaceAllConcat(s[1..], t, c, text);
    }
  }

  /** The two replaces in sequence escape each character once. */
  lemma {:induction false} EscapeIsPerCharacter(value: string)
    ensures Escape(value) == EscapeEach(value)
  {
    if value != "" {
      var head := if value[0] == '\\' then "\\\\" else [value[0]];
      var rest := ReplaceAll(value[1..], '\\', "\\\\");
      ReplaceAllConcat(head, rest, ':', "\\:");
      assert ReplaceAll(head, ':', "\\:") == EscapeChar(value[0]) by {
        assert head[1..] == (if value[0] == '\\' then "\\" else "");
        assert ReplaceAll("\\", ':', "\\:") == "\\" by {
          assert "\\"[1..] == "";
        }
      }
      EscapeIsPerCharacter(value[1..]);
    }
  }

  function SigningString(fields: seq<string>): string {
    if fields == [] then ""
    else if |fields| == 1 then Escape(fields[0])
    else Escape(fields[0]) + ":" + SigningString(fields[1..])
  }

  /** Read fields back: a backslash takes the next character literally, a bare colon ends a field. */
  function Unjoin(s: string, field: string): seq<string>
    decreases |s|
  {
    if s == "" then [field]
    else if s[0] == '\\' && |s| >= 2 then Unjoin(s[2..], field + [s[1]])
    else if s[0] == ':' then [field] + Unjoin(s[1..], "")
    else Unjoin(s[1..], field + [s[0]])
  }

  lemma {:induction false} UnjoinField(value: string, rest: string, field: string)
    ensures Unjoin(EscapeEach(value) + rest, field) == Unjoin(rest, field + value)
  {
    if value == "" {
      assert EscapeEach(value) + rest == rest && field + value == field;
    } else {
      var tail := EscapeEach(value[1..]) + rest;
      assert EscapeEach(value) + rest == EscapeChar(value[0]) + tail;
      assert (EscapeChar(value[0]) + tail)[|EscapeChar(value[0])|..] == tail;
      UnjoinField(value[1..], rest, field + [value[0]]);
      assert field + [value[0]] + value[1..] == field + value;
    }
  }

  lemma {:induction false} EndOfFields(field: string)
    ensures Unjoin("", field) == [field]
  {
  }

  lemma {:induction false} NextField(rest: string, field: string)
    requires rest != "" && rest[0] == ':'
    ensures Unjoin(rest, field) == [field] + Unjoin(rest[1..], "")
  {
  }

  lemma {:induction false} UnjoinSigningString(fields: seq<string>)
    requires fields != []
    ensures Unjoin(SigningString(fields), "") == fields
  {
    hide Escape, EscapeEach, Unjoin;
    EscapeIsPerCharacter(fields[0]);
    if |fields| == 1 {
      EndOfFields("" + fields[0]);
      assert EscapeEach(fields[0]) + "" == EscapeEach(fields[0]);
      UnjoinField(fields[0], "", "");
      assert "" + fields[0] == fields[0] && fields == [fields[0]];
    } else {
      var rest := ":" + SigningString(fields[1..]);
      assert SigningString(fields) == EscapeEach(fields[0]) + rest;
      UnjoinField(fields[0], rest, "");
      assert rest[1..] == SigningString(fields[1..]);
      assert "" + fields[0] == fields[0];
      NextField(rest, fields[0]);
      UnjoinSigningString(fields[1..]);
    }
  }

  /** Two field tuples sign the same string only if they are the same tuple, colons, backslashes
      and empty fields included. */
  lemma {:induction false} SigningStringInjective(a: seq<string>, b: seq<string>)
    requires a != [] && b != []
    requires SigningString(a) == SigningString(b)
    ensures a == b
  {
    UnjoinSigningString(a);
    UnjoinSigningString(b);
  }

  /** A JSON value as a notification item carries it; shown is its text form. */
  datatype Field =
    | Null
    | Boolean(b: bool)
    | Text(s: string)
    | Nested(entries: map<string, Field>, shown: string)
    | Other(shown: string)

  type Item = map<string, Field>

  function Get<V>(m: map<string, V>, name: string): Option<V> {
    if name in m then Some(m[name]) else None
  }

  function TextOf(field: Option<Field>): string {
    match field
    case None => ""
    case Some(Null) => ""
    case Some(Boolean(b)) => if b then "true" else "false"
    case Some(Text(s)) => s
    case Some(Nested(_, shown)) => shown
    case Some(Other(shown)) => shown
  }

  function Amount(item: Item): Item {
    match Get<Field>(item, "amount")
    case Some(Nested(entries, _)) => entries
    case _ => map[]
  }

  /** The text signed for one field: the item's own, or for an empty value and currency the one
      nested under amount. */
  function Flattened(item: Item, name: string): string {
    var own := TextOf(Get(item, name));
    if own == "" && (name == VALUE || name == CURRENCY) then TextOf(Get(Amount(item), name)) else own
  }

  lemma AmountFieldsSigned()
    ensures VALUE in ADYEN_SIGNED_FIELDS && CURRENCY in ADYEN_SIGNED_FIELDS && VALUE != CURRENCY
  {
    assert ADYEN_SIGNED_FIELDS[4] == VALUE && ADYEN_SIGNED_FIELDS[5] == CURRENCY;
    assert |VALUE| != |CURRENCY|;
  }

  method SigningFields(item: Item) returns (fields: map<string, string>)
    ensures forall name :: name in fields <==> name in ADYEN_SIGNED_FIELDS
    ensures forall name <- fields :: fields[name] == Flattened(item, name)
  {
    AmountFieldsSigned();
    var nested := Amount(item);
    fields := map name | name in ADYEN_SIGNED_FIELDS :: TextOf(Get(item, name));
    if fields[VALUE] == "" {
      fields := fields[VALUE := TextOf(Get(nested, VALUE))];
    }
    if fields[CURRENCY] == "" {
      fields := fields[CURRENCY := TextOf(Get(nested, CURRENCY))];
    }
  }

  /** The eight texts in signing order. */
  function SignedTexts(fields: map<string, string>): seq<string> {
    seq(|ADYEN_SIGNED_FIELDS|, i requires 0 <= i < |ADYEN_SIGNED_FIELDS| =>
      Get(fields, ADYEN_SIGNED_FIELDS[i]).GetOr(""))
  }

  function AdyenSigningString(fields: map<string, string>): string {
    SigningString(SignedTexts(fields))
  }

  function FieldText(fields: map<string, string>, name: string): string {
    Escape(Get(fields, name).GetOr(""))
  }

  lemma {:induction false} JoinMore(first: string, rest: seq<string>)
    requires rest != []
    ensures SigningString([first] + rest) == Escape(first) + ":" + SigningString(rest)
  {
    assert ([first] + rest)[1..] == rest;
  }

  /** The string that is signed: the eight fields in this order, escaped, with a colon between any two; one
      that is missing counts as empty. */
  lemma {:induction false} SigningLayout(fields: map<string, string>)
    ensures AdyenSigningString(fields) ==
            FieldText(fields, "pspReference") + ":" + (FieldText(fields, "originalReference") + ":" + (
            FieldText(fields, "merchantAccountCode") + ":" + (FieldText(fields, "merchantReference") + ":" + (
            FieldText(fields, "value") + ":" + (FieldText(fields, "currency") + ":" + (
            FieldText(fields, "eventCode") + ":" + FieldText(fields, "success")))))))
  {
    var texts := SignedTexts(fields);
    hide Escape;
    assert texts == [texts[0]] + texts[1..] && texts[1..] == [texts[1]] + texts[2..];
    assert texts[2..] == [texts[2]] + texts[3..];
    assert texts[3..] == [texts[3]] + texts[4..] && texts[4..] == [texts[4]] + texts[5..];
    assert texts[5..] == [texts[5]] + texts[6..] && texts[6..] == [texts[6]] + texts[7..] && texts[7..] == [texts[7]];
    hide SigningString;
    JoinMore(texts[0], texts[1..]);
    JoinMore(texts[1], texts[2..]);
    JoinMore(texts[2], texts[3..]);
    JoinMore(texts[3], texts[4..]);
    JoinMore(texts[4], texts[5..]);
    JoinMore(texts[5], texts[6..]);
    JoinMore(texts[6], texts[7..]);
    OneField(texts[7]);
  }

  lemma {:induction false} OneField(text: string)
    ensures SigningString([text]) == Escape(text)
  {
  }

  /** What is signed for one field of an item: nothing for a missing or null one, a lower case word for a truth
      value, and for the two amount fields, where the item's own are empty, those of its amount. */
  lemma FieldSigned(item: Item, name: string)
    ensures TextOf(None) == TextOf(Some(Null)) == ""
    ensures TextOf(Some(Boolean(true))) == "true" && TextOf(Some(Boolean(false))) == "false"
    ensures name !in {"value", "currency"} ==> Flattened(item, name) == TextOf(Get(item, name))
    ensures name in {"value", "currency"} ==>
              Flattened(item, name) ==
              if TextOf(Get(item, name)) != "" || "amount" !in item || !item["amount"].Nested? then
                TextOf(Get(item, name))
              else TextOf(Get(item["amount"].entries, name))
  {
  }

  /** A flat mapping seen as an item. */
  function AsItem(flat: map<string, string>): Item {
    map name | name in flat :: Text(flat[name])
  }

  /** Flattening what is already flat changes no signed field, so both shapes sign alike. */
  lemma FlatteningIsIdempotent(flat: map<string, string>)
    ensures
      var again := map name | name in ADYEN_SIGNED_FIELDS :: Flattened(AsItem(flat), name);
      SignedTexts(again) == SignedTexts(flat) && AdyenSigningString(again) == AdyenSigningString(flat)
  {
    assert Amount(AsItem(flat)) == map[];
    var again := map name | name in ADYEN_SIGNED_FIELDS :: Flattened(AsItem(flat), name);
    forall i | 0 <= i < |ADYEN_SIGNED_FIELDS| ensures SignedTexts(again)[i] == SignedTexts(flat)[i] {
      assert ADYEN_SIGNED_FIELDS[i] in ADYEN_SIGNED_FIELDS;
    }
  }

  /** Items that sign the same string agree on every signed field. */
  lemma SameStringSameFields(a: Item, b: Item, i: nat)
    requires i < |ADYEN_SIGNED_FIELDS|
    requires
      AdyenSigningString(map name | name in ADYEN_SIGNED_FIELDS :: Flattened(a, name)) ==
      AdyenSigningString(map name | name in ADYEN_SIGNED_FIELDS :: Flattened(b, name))
    ensures Flattened(a, ADYEN_SIGNED_FIELDS[i]) == Flattened(b, ADYEN_SIGNED_FIELDS[i])
  {
    var fa := map name | name in ADYEN_SIGNED_FIELDS :: Flattened(a, name);
    var fb := map name | name in ADYEN_SIGNED_FIELDS :: Flattened(b, name);
    SigningStringInjective(SignedTexts(fa), SignedTexts(fb));
    assert ADYEN_SIGNED_FIELDS[i] in ADYEN_SIGNED_FIELDS;
    assert SignedTexts(fa)[i] == fa[ADYEN_SIGNED_FIELDS[i]];
    assert SignedTexts(fb)[i] == fb[ADYEN_SIGNED_FIELDS[i]];
  }

  // ------------------------------------------------------------------ Stripe

  /** What str.strip removes. */
  predicate IsSpace(c: char) {
    c in {'\t', '\n', '\U{0B}', '\U{0C}', '\r', '\U{1C}', '\U{1D}', '\U{1E}', '\U{1F}', ' ', '\U{85}', '\U{A0}',
          '\U{1680}', '\U{2028}', '\U{2029}', '\U{202F}', '\U{205F}', '\U{3000}'}
    || '\U{2000}' <= c <= '\U{200A}'
  }

  /** Of the first 128 characters, the blanks are tab to carriage return and the four separators to space. */
  lemma AsciiBlanks(c: char)
    requires c < '\U{80}'
    ensures IsSpace(c) <==> '\t' <= c <= '\r' || '\U{1C}' <= c <= ' '
  {
  }

  function Stripped(s: string): string
    decreases |s|
  {
    if s == "" then ""
    else if IsSpace(s[0]) then Stripped(s[1..])
    else if IsSpace(s[|s| - 1]) then Stripped(s[..|s| - 1])
    else s
  }

  /** str.split on one character. */
  function Split(s: string, c: char): (parts: seq<string>)
    ensures parts != []
  {
    if s == "" then [""]
    else
      var rest := Split(s[1..], c);
      if s[0] == c then [""] + rest else [[s[0]] + rest[0]] + rest[1..]
  }

  datatype Part = Part(scheme: string, raw: string)

  /** Cut at the first equals sign; None where the part has none. */
  function Partition(part: string): Option<Part> {
    if part == "" then None
    else if part[0] == '=' then Some(Part("", part[1..]))
    else
      match Partition(part[1..])
      case None => None
      case Some(p) => Some(Part([part[0]] + p.scheme, p.raw))
  }

  function Cut(part: string): Option<Part> {
    Partition(Stripped(part))
  }

  /** The value of the last part whose scheme is t. */
  function LastTimestamp(parts: seq<string>): Option<string> {
    if parts == [] then None
    else
      match Cut(parts[|parts| - 1])
      case Some(Part("t", raw)) => Some(raw)
      case _ => LastTimestamp(parts[..|parts| - 1])
  }

  /** Every v1 value, in the order it appears. */
  function Signatures(parts: seq<string>): seq<string> {
    if parts == [] then []
    else
      var front := Signatures(parts[..|parts| - 1]);
      match Cut(parts[|parts| - 1])
      case Some(Part("v1", raw)) => front + [raw]
      case _ => front
  }

  /** What the header carries: a canonical timestamp and at least one v1 signature, else nothing. */
  function HeaderContents(value: string): Option<(nat, seq<string>)> {
    var parts := Split(value, ',');
    match LastTimestamp(parts)
    case None => None
    case Some(t) => if Canonical(t) && Signatures(parts) != [] then Some((Read(t), Signatures(parts))) else None
  }

  /** None stands for every rejection of the header. */
  method ParseStripeSignatureHeader(value: string) returns (r: Option<(nat, seq<string>)>)
    ensures r == HeaderContents(value)
  {
    var timestamp: Option<string> := None;
    var signatures: seq<string> := [];
    var parts := Split(value, ',');
    for i := 0 to |parts|
      invariant timestamp == LastTimestamp(parts[..i])
      invariant signatures == Signatures(parts[..i])
    {
      assert parts[..i + 1][..i] == parts[..i];
      var cut := Cut(parts[i]);
      if cut.Some? {
        if cut.value.scheme == "t" {
          timestamp := Some(cut.value.raw);
        } else if cut.value.scheme == "v1" {
          signatures := signatures + [cut.value.raw];
        }
      }
    }
    assert parts[..|parts|] == parts;
    if timestamp.None? || timestamp.value == "" || exists c <- timestamp.value :: !IsDigit(c) {
      return None;
    }
    var number := Read(timestamp.value);
    ReadDigits(number);
    if timestamp.value != Digits(number) || signatures == [] {
      if Canonical(timestamp.value) {
        DigitsRead(timestamp.value);
      }
      return None;
    }
    return Some((number, signatures));
  }

  /** A part a header can carry verbatim. */
  predicate Printable(p: Part) {
    && (forall c <- p.scheme :: c != ',' && c != '=' && !IsSpace(c))
    && (forall c <- p.raw :: c != ',' && !IsSpace(c))
  }

  function Shown(p: Part): string {
    p.scheme + "=" + p.raw
  }

  function HeaderText(parts: seq<Part>): string
    requires parts != []
  {
    if |parts| == 1 then Shown(parts[0]) else Shown(parts[0]) + "," + HeaderText(parts[1..])
  }

  function Listed(parts: seq<Part>): seq<string> {
    seq(|parts|, i requires 0 <= i < |parts| => Shown(parts[i]))
  }

  lemma {:induction false} SplitAt(field: string, rest: string, c: char)
    requires c !in field
    ensures Split(field, c) == [field]
    ensures Split(field + [c] + rest, c) == [field] + Split(rest, c)
  {
    var s := field + [c] + rest;
    if field == "" {
      assert s[1..] == rest;
    } else {
      assert field[0] in field;
      SplitAt(field[1..], rest, c);
      assert s[1..] == field[1..] + [c] + rest;
      assert field == [field[0]] + field[1..];
    }
  }

  lemma {:induction false} SplitHeader(parts: seq<Part>)
    requires parts != [] && forall p <- parts :: Printable(p)
    ensures Split(HeaderText(parts), ',') == Listed(parts)
  {
    assert parts[0] in parts;
    if |parts| == 1 {
      SplitAt(Shown(parts[0]), "", ',');
      assert Listed(parts) == [Shown(parts[0])];
    } else {
      SplitHeader(parts[1..]);
      SplitAt(Shown(parts[0]), HeaderText(parts[1..]), ',');
      assert Listed(parts) == [Shown(parts[0])] + Listed(parts[1..]);
    }
  }

  lemma {:induction false} PartitionShown(p: Part)
    requires '=' !in p.scheme
    ensures Partition(Shown(p)) == Some(p)
    decreases |p.scheme|
  {
    var s := Shown(p);
    if p.scheme == "" {
      assert s[1..] == p.raw;
    } else {
      assert p.scheme[0] in p.scheme;
      PartitionShown(Part(p.scheme[1..], p.raw));
      assert s[1..] == Shown(Part(p.scheme[1..], p.raw));
      assert p.scheme == [p.scheme[0]] + p.scheme[1..];
    }
  }

  lemma CutShown(p: Part)
    requires Printable(p)
    ensures Cut(Shown(p)) == Some(p)
  {
    var s := Shown(p);
    assert s[0] == if p.scheme == "" then '=' else p.scheme[0];
    assert s[|s| - 1] == if p.raw == "" then '=' else p.raw[|p.raw| - 1];
    assert !IsSpace('=');
    assert p.scheme != "" ==> p.scheme[0] in p.scheme;
    assert p.raw != "" ==> p.raw[|p.raw| - 1] in p.raw;
    PartitionShown(p);
  }

  // The same reading done on parts rather than on text.

  function LastT(parts: seq<Part>): Option<string> {
    if parts == [] then None
    else if parts[|parts| - 1].scheme == "t" then Some(parts[|parts| - 1].raw)
    else LastT(parts[..|parts| - 1])
  }

  function V1s(parts: seq<Part>): seq<string> {
    if parts == [] then []
    else V1s(parts[..|parts| - 1]) + (if parts[|parts| - 1].scheme == "v1" then [parts[|parts| - 1].raw] else [])
  }

  /** The parts the header is read for; every other scheme, v0 included, is dropped. */
  function Relevant(parts: seq<Part>): seq<Part> {
    if parts == [] then []
    else
      var last := parts[|parts| - 1];
      Relevant(parts[..|parts| - 1]) + (if last.scheme == "t" || last.scheme == "v1" then [last] else [])
  }

  lemma {:induction false} RelevantLast(parts: seq<Part>)
    requires parts != []
    ensures
      var front, last := Relevant(parts[..|parts| - 1]), parts[|parts| - 1];
      && LastT(Relevant(parts)) == (if last.scheme == "t" then Some(last.raw) else LastT(front))
      && V1s(Relevant(parts)) == V1s(front) + (if last.scheme == "v1" then [last.raw] else [])
  {
    var front, last := Relevant(parts[..|parts| - 1]), parts[|parts| - 1];
    if last.scheme == "t" || last.scheme == "v1" {
      assert Relevant(parts) == front + [last] && Relevant(parts)[..|front|] == front;
    } else {
      assert Relevant(parts) == front;
    }
  }

  lemma {:induction false} ReadListed(parts: seq<Part>)
    requires forall p <- parts :: Printable(p)
    ensures LastTimestamp(Listed(parts)) == LastT(Relevant(parts))
    ensures Signatures(Listed(parts)) == V1s(Relevant(parts))
    decreases |parts|
  {
    if parts != [] {
      var front, last := parts[..|parts| - 1], parts[|parts| - 1];
      assert last in parts && forall p <- front :: p in parts;
      CutShown(last);
      hide Cut, Shown, Printable, LastT, V1s, Relevant;
      ReadListed(front);
      assert Listed(parts)[..|parts| - 1] == Listed(front);
      RelevantLast(parts);
    } else {
      assert Relevant(parts) == [];
    }
  }

  /** Exactly what a printed header is read as: its last timestamp, if that is written as a number is, and its
      v1 signatures, if there are any; without either it is rejected. */
  lemma {:induction false} HeaderExactly(parts: seq<Part>, n: nat, signatures: seq<string>)
    requires parts != [] && forall p <- parts :: Printable(p)
    ensures HeaderContents(HeaderText(parts)) == Some((n, signatures)) <==>
            LastT(parts) == Some(Digits(n)) && V1s(parts) == signatures && signatures != []
    ensures HeaderContents(HeaderText(parts)) == None <==>
            LastT(parts) == None || V1s(parts) == [] || forall k: nat :: LastT(parts) != Some(Digits(k))
  {
    SplitHeader(parts);
    ReadListed(parts);
    RelevantReads(parts);
    hide Listed, Relevant, LastT, V1s, HeaderText, Printable, Read, Digits, Canonical, Signatures, LastTimestamp;
    if LastT(parts).Some? {
      CanonicalOnly(LastT(parts).value);
    }
    ReadDigits(n);
  }

  /** Text is a number as one is written exactly when it is canonical. */
  lemma {:induction false} CanonicalOnly(s: string)
    ensures Canonical(s) <==> exists k: nat :: s == Digits(k)
    ensures Canonical(s) ==> s == Digits(Read(s))
    ensures forall k: nat :: Canonical(Digits(k)) && Read(Digits(k)) == k
  {
    forall k: nat ensures Canonical(Digits(k)) && Read(Digits(k)) == k {
      ReadDigits(k);
    }
    if Canonical(s) {
      DigitsRead(s);
    }
    hide Digits, Canonical, Read;
  }

  lemma {:induction false} RelevantReads(parts: seq<Part>)
    ensures LastT(Relevant(parts)) == LastT(parts) && V1s(Relevant(parts)) == V1s(parts)
    decreases |parts|
  {
    if parts != [] {
      RelevantReads(parts[..|parts| - 1]);
      RelevantLast(parts);
      var last := parts[|parts| - 1];
      assert V1s(parts[..|parts| - 1]) + [] == V1s(parts[..|parts| - 1]);
      assert last.scheme == "t" ==> last.scheme != "v1";
    }
  }

  /** Blanks around a part are not part of it. */
  lemma {:induction false} CutPadded(before: string, p: Part, after: string)
    requires Printable(p) && (forall c <- before + after :: IsSpace(c))
    ensures Cut(before + Shown(p) + after) == Some(p)
    decreases |before| + |after|
  {
    var s := before + Shown(p) + after;
    if before != "" {
      assert s[0] == before[0] && before[0] in before + after;
      assert s[1..] == before[1..] + Shown(p) + after;
      assert forall c <- before[1..] + after :: c in before + after;
      CutPadded(before[1..], p, after);
    } else if after != "" {
      var front := after[..|after| - 1];
      assert s[|s| - 1] == after[|after| - 1] && after[|after| - 1] in before + after;
      assert s[..|s| - 1] == before + Shown(p) + front;
      assert forall c <- before + front :: c in before + after;
      CutPadded(before, p, front);
      FirstShown(p, s);
    } else {
      assert s == Shown(p);
      CutShown(p);
    }
  }

  lemma {:induction false} StrippedWithin(s: string, c: char)
    requires c !in s
    ensures c !in Stripped(s)
    decreases |s|
  {
    if s != "" && IsSpace(s[0]) {
      assert forall x <- s[1..] :: x in s;
      StrippedWithin(s[1..], c);
    } else if s != "" && IsSpace(s[|s| - 1]) {
      assert forall x <- s[..|s| - 1] :: x in s;
      StrippedWithin(s[..|s| - 1], c);
    }
  }

  lemma {:induction false} NoPartition(s: string)
    requires '=' !in s
    ensures Partition(s) == None
  {
    if s != "" {
      assert s[0] in s && forall x <- s[1..] :: x in s;
      NoPartition(s[1..]);
    }
  }

  /** A part without an equals sign is passed over. */
  lemma BarePartIgnored(s: string)
    requires '=' !in s
    ensures Cut(s) == None
  {
    StrippedWithin(s, '=');
    NoPartition(Stripped(s));
  }

  lemma FirstShown(p: Part, s: string)
    requires Printable(p) && |s| >= |Shown(p)| && s[..|Shown(p)|] == Shown(p)
    ensures !IsSpace(s[0])
  {
    assert s[0] == s[..|Shown(p)|][0] == if p.scheme == "" then '=' else p.scheme[0];
    assert p.scheme != "" ==> p.scheme[0] in p.scheme;
  }

  /** Reading a printed header depends on its t and v1 parts alone, wherever the others stand. */
  lemma {:induction false} OtherSchemesIgnored(a: seq<Part>, b: seq<Part>)
    requires a != [] && b != []
    requires forall p <- a + b :: Printable(p)
    requires Relevant(a) == Relevant(b)
    ensures HeaderContents(HeaderText(a)) == HeaderContents(HeaderText(b))
  {
    forall p | p in a || p in b ensures Printable(p) {
      assert p in a + b;
    }
    SplitHeader(a);
    SplitHeader(b);
    ReadListed(a);
    ReadListed(b);
  }

  /** The header the provider sends: one timestamp, then one v1 value per active secret. */
  function Signed(n: nat, signatures: seq<string>): seq<Part> {
    [Part("t", Digits(n))] + seq(|signatures|, i requires 0 <= i < |signatures| => Part("v1", signatures[i]))
  }

  predicate IsHex(s: string) {
    forall c <- s :: IsDigit(c) || 'a' <= c <= 'f'
  }

  lemma {:induction false} RelevantSnoc(parts: seq<Part>, last: Part)
    requires Relevant(parts) == parts && (last.scheme == "t" || last.scheme == "v1")
    ensures Relevant(parts + [last]) == parts + [last]
    ensures last.scheme == "v1" ==>
              LastT(parts + [last]) == LastT(parts) && V1s(parts + [last]) == V1s(parts) + [last.raw]
  {
    var more := parts + [last];
    assert more[..|more| - 1] == parts && more[|more| - 1] == last;
    assert last.scheme == "v1" ==> last.scheme[0] != 't';
  }

  lemma SignedSnoc(n: nat, front: seq<string>, last: string)
    ensures Signed(n, front + [last]) == Signed(n, front) + [Part("v1", last)]
  {
  }

  lemma {:induction false} SignedNone(n: nat)
    ensures Signed(n, []) == [Part("t", Digits(n))]
    ensures Relevant(Signed(n, [])) == Signed(n, []) && LastT(Signed(n, [])) == Some(Digits(n))
          && V1s(Signed(n, [])) == []
  {
    hide Digits;
    var parts := Signed(n, []);
    assert parts == [Part("t", Digits(n))] && parts[..0] == [];
    assert Relevant(parts[..0]) == [] && V1s(parts[..0]) == [];
    assert "t"[0] != "v1"[0];
  }

  lemma {:induction false} SignedRelevant(n: nat, signatures: seq<string>)
    ensures Relevant(Signed(n, signatures)) == Signed(n, signatures)
    ensures LastT(Signed(n, signatures)) == Some(Digits(n))
    ensures V1s(Signed(n, signatures)) == signatures
    decreases |signatures|
  {
    hide Relevant, LastT, V1s, Signed, Digits;
    if signatures == [] {
      SignedNone(n);
    } else {
      var front, last := signatures[..|signatures| - 1], signatures[|signatures| - 1];
      assert signatures == front + [last];
      SignedRelevant(n, front);
      SignedSnoc(n, front, last);
      RelevantSnoc(Signed(n, front), Part("v1", last));
    }
  }

  /** Round trip: the timestamp and the signatures of a printed header come back, with parts of any
      other scheme interleaved anywhere. */
  lemma {:induction false} HeaderRoundTrip(n: nat, signatures: seq<string>, parts: seq<Part>)
    requires signatures != [] && forall s <- signatures :: IsHex(s)
    requires forall p <- parts :: Printable(p)
    requires Relevant(parts) == Signed(n, signatures)
    ensures parts != [] && HeaderContents(HeaderText(parts)) == Some((n, signatures))
  {
    SignedRelevant(n, signatures);
    assert Relevant([]) == [];
    SplitHeader(parts);
    ReadListed(parts);
    ReadDigits(n);
  }

  /** The provider's own header is one of those. */
  lemma ProviderHeaderPrintable(n: nat, signatures: seq<string>)
    requires forall s <- signatures :: IsHex(s)
    ensures forall p <- Signed(n, signatures) :: Printable(p)
    ensures Relevant(Signed(n, signatures)) == Signed(n, signatures)
  {
    SignedRelevant(n, signatures);
    ReadDigits(n);
    hide Relevant, Digits, Read;
    forall p | p in Signed(n, signatures) ensures Printable(p) {
      if p != Part("t", Digits(n)) {
        var i :| 0 <= i < |signatures| && p == Part("v1", signatures[i]);
        assert signatures[i] in signatures;
      }
    }
  }
}

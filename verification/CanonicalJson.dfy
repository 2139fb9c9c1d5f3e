/** Canonical JSON: one text for each value, from which the value can be read back. */
module CanonicalJson {
  import opened Results
  import opened Sorting
  import opened Text

  /** A JSON value. Strings are sequences of Unicode scalar values; a number is its token
      (section 6 of RFC 8259). */
  datatype Json =
    | Null
    | Bool(value: bool)
    | Number(token: string)
    | String(text: string)
    | Array(items: seq<Json>)
    | Object(members: map<string, Json>)

  // ---- Strings ----

  function HexDigit(n: nat): (c: char)
    requires n < 16
  {
    "0123456789abcdef"[n]
  }

  function HexValue(c: char): Option<nat> {
    if '0' <= c <= '9' then Some((c - '0') as nat)
    else if 'a' <= c <= 'f' then Some((c - 'a') as nat + 10)
    else if 'A' <= c <= 'F' then Some((c - 'A') as nat + 10)
    else None
  }

  /** Characters that are written by their number: controls without a short form, what could end a
      script element, and the two line separators of JavaScript. */
  predicate ByNumber(c: char) {
    || (c as int < 0x20 && c !in "\n\r\t" && c as int != 8 && c as int != 12)
    || c in "<>&" || c as int == 0x2028 || c as int == 0x2029
  }

  function Numbered(c: char): string
    requires c as int < 0x10000
  {
    var n := c as int;
    "\\u" + [HexDigit(n / 4096), HexDigit(n / 256 % 16), HexDigit(n / 16 % 16), HexDigit(n % 16)]
  }

  function Escape(c: char): string {
    if c == '"' then "\\\""
    else if c == '\\' then "\\\\"
    else if c == '\n' then "\\n"
    else if c == '\r' then "\\r"
    else if c == '\t' then "\\t"
    else if c as int == 8 then "\\b"
    else if c as int == 12 then "\\f"
    else if ByNumber(c) then Numbered(c)
    else [c]
  }

  function EscapeAll(s: string): string {
    if s == "" then "" else Escape(s[0]) + EscapeAll(s[1..])
  }

  /** Characters that never stand for themselves. */
  predicate IsUnsafe(c: char) { (c as int) < 0x20 || c in "<>&" || c as int == 0x2028 || c as int == 0x2029 }

  /** Exactly the unsafe characters, the quotation mark and the backslash are escaped; five controls have a short
      form, and no other short form is used. */
  lemma EscapeIs(c: char)
    ensures Escape(c) == [c] <==> !IsUnsafe(c) && c !in "\"\\"
    ensures Escape(c) != [c] ==>
              |Escape(c)| in {2, 6} && Escape(c)[0] == '\\' && (|Escape(c)| == 6 <==> Escape(c)[1] == 'u')
    ensures |Escape(c)| == 2 <==> c in "\"\\\n\r\t" || c as int == 8 || c as int == 12
    ensures forall i :: 0 <= i < |Escape(c)| ==> !IsUnsafe(Escape(c)[i])
  {
    if ByNumber(c) {
      var n := c as int;
      assert Numbered(c) == ['\\', 'u', HexDigit(n / 4096), HexDigit(n / 256 % 16), HexDigit(n / 16 % 16),
                             HexDigit(n % 16)];
      DigitIsSafe(n / 4096);
      DigitIsSafe(n / 256 % 16);
      DigitIsSafe(n / 16 % 16);
      DigitIsSafe(n % 16);
    }
  }

  lemma DigitIsSafe(n: nat)
    requires n < 16
    ensures !IsUnsafe(HexDigit(n)) && ('0' <= HexDigit(n) <= '9' || 'a' <= HexDigit(n) <= 'f')
  {}

  /** No unsafe character is in the text of a string. */
  lemma {:induction false} TextIsSafe(text: string)
    ensures forall i :: 0 <= i < |Quote(text)| ==> !IsUnsafe(Quote(text)[i])
  {
    if text != "" {
      TextIsSafe(text[1..]);
      EscapeIs(text[0]);
      assert forall i :: 0 <= i < |EscapeAll(text[1..])| ==> EscapeAll(text[1..])[i] == Quote(text[1..])[i + 1];
    }
  }

  function Quote(s: string): string { "\"" + EscapeAll(s) + "\"" }

  // ---- Numbers ----

  predicate NumberChar(c: char) { '0' <= c <= '9' || c in "+-.eE" }

  function DigitsAt(s: string): (k: nat)
    ensures k <= |s|
  {
    if s != "" && '0' <= s[0] <= '9' then 1 + DigitsAt(s[1..]) else 0
  }

  /** int of the grammar: a single zero, or digits that do not start with one. */
  function AfterInteger(s: string): Option<string> {
    var k := DigitsAt(s);
    if k == 0 || (s[0] == '0' && k > 1) then None else Some(s[k..])
  }

  function AfterFraction(s: string): Option<string> {
    if s == "" || s[0] != '.' then Some(s)
    else
      var k := DigitsAt(s[1..]);
      if k == 0 then None else Some(s[1 + k..])
  }

  predicate IsExponent(s: string) {
    || s == ""
    || (s[0] in "eE"
        && var digits := if |s| > 1 && s[1] in "+-" then s[2..] else s[1..]; DigitsAt(digits) == |digits| > 0)
  }

  /** number = [ "-" ] int [ frac ] [ exp ] */
  predicate IsNumber(s: string) {
    var unsigned := if s != "" && s[0] == '-' then s[1..] else s;
    var fraction := AfterInteger(unsigned);
    fraction.Some? && (var exponent := AfterFraction(fraction.value); exponent.Some? && IsExponent(exponent.value))
  }

  /** Every number in the value is a number of the grammar. */
  ghost predicate Valid(v: Json)
    decreases v
  {
    match v
    case Number(token) => IsNumber(token)
    case Array(items) => forall i :: 0 <= i < |items| ==> Valid(items[i])
    case Object(members) => forall key :: key in members ==> Valid(members[key])
    case _ => true
  }

  // ---- The canonical text ----

  ghost function Canonical(v: Json): string
    decreases v, 1, 0
  {
    match v
    case Null => "null"
    case Bool(value) => if value then "true" else "false"
    case Number(token) => token
    case String(text) => Quote(text)
    case Array(_) => "[" + Items(v, 0) + "]"
    case Object(members) => "{" + Members(v, Sorted(members.Keys)) + "}"
  }

  ghost function Items(v: Json, i: nat): string
    requires v.Array? && i <= |v.items|
    decreases v, 0, |v.items| - i
  {
    if i == |v.items| then "" else (if i > 0 then "," else "") + (Canonical(v.items[i]) + Items(v, i + 1))
  }

  /** The members with these keys; each but the first of the object is preceded by a comma. */
  ghost function Members(v: Json, keys: seq<string>): string
    requires v.Object? && |keys| <= |v.members| && forall key :: key in keys ==> key in v.members
    decreases v, 0, |keys|
  {
    if keys == [] then ""
    else (if |keys| < |v.members| then "," else "") + (Member(v, keys[0]) + Members(v, keys[1..]))
  }

  ghost function Member(v: Json, key: string): string
    requires v.Object? && key in v.members
    decreases v, 0, 0
  {
    Quote(key) + ":" + Canonical(v.members[key])
  }

  // ---- Reading it back ----

  /** The scalar value with this number; surrogates are none. */
  function Scalar(n: nat): Option<char> {
    if n < 0xD800 || 0xE000 <= n < 0x10000 then Some(n as char) else None
  }

  function ReadHex(s: string): Option<char> {
    if |s| < 4 then None
    else
      var a, b, c, d := HexValue(s[0]), HexValue(s[1]), HexValue(s[2]), HexValue(s[3]);
      if a.None? || b.None? || c.None? || d.None? then None
      else Scalar(a.value * 4096 + b.value * 256 + c.value * 16 + d.value)
  }

  /** The first character of a string body, and what follows it. */
  function ReadChar(s: string): (r: Option<(char, string)>)
    ensures r.Some? ==> |r.value.1| < |s|
  {
    if s == "" || (s[0] as int) < 0x20 then None
    else if s[0] != '\\' then Some((s[0], s[1..]))
    else if |s| == 1 then None
    else if s[1] == 'n' then Some(('\n', s[2..]))
    else if s[1] == 'r' then Some(('\r', s[2..]))
    else if s[1] == 't' then Some(('\t', s[2..]))
    else if s[1] == 'b' then Some((8 as char, s[2..]))
    else if s[1] == 'f' then Some((12 as char, s[2..]))
    else if s[1] == '"' || s[1] == '\\' || s[1] == '/' then Some((s[1], s[2..]))
    else if s[1] == 'u' && ReadHex(s[2..]).Some? then Some((ReadHex(s[2..]).value, s[6..]))
    else None
  }

  /** A string body up to its closing quotation mark, and what follows that. */
  function ReadString(s: string): (r: Option<(string, string)>)
    ensures r.Some? ==> |r.value.1| < |s|
    decreases |s|
  {
    if s != "" && s[0] == '"' then Some(("", s[1..]))
    else
      var first := ReadChar(s);
      if first.None? then None
      else
        var others := ReadString(first.value.1);
        if others.None? then None else Some(([first.value.0] + others.value.0, others.value.1))
  }

  function TokenLength(s: string): (k: nat)
    ensures k <= |s|
  {
    if s != "" && NumberChar(s[0]) then 1 + TokenLength(s[1..]) else 0
  }

  function ReadNumber(s: string): (r: Option<(Json, string)>)
    ensures r.Some? ==> |r.value.1| < |s|
  {
    var k := TokenLength(s);
    if k > 0 && IsNumber(s[..k]) then Some((Number(s[..k]), s[k..])) else None
  }

  function ReadWord(s: string, word: string, v: Json): (r: Option<(Json, string)>)
    ensures r.Some? ==> |r.value.1| == |s| - |word|
  {
    if word <= s then Some((v, s[|word|..])) else None
  }

  /** A parser for JSON texts without insignificant white space (section 2 of RFC 8259). */
  function ReadValue(s: string): (r: Option<(Json, string)>)
    ensures r.Some? ==> |r.value.1| < |s|
    decreases |s|, 1
  {
    if s == "" then None
    else if s[0] == 'n' then ReadWord(s, "null", Null)
    else if s[0] == 't' then ReadWord(s, "true", Bool(true))
    else if s[0] == 'f' then ReadWord(s, "false", Bool(false))
    else if s[0] == '"' then
      var text := ReadString(s[1..]);
      if text.None? then None else Some((String(text.value.0), text.value.1))
    else if s[0] == '[' then
      if |s| > 1 && s[1] == ']' then Some((Array([]), s[2..]))
      else
        var items := ReadItems(s[1..]);
        if items.None? then None else Some((Array(items.value.0), items.value.1))
    else if s[0] == '{' then
      if |s| > 1 && s[1] == '}' then Some((Object(map[]), s[2..]))
      else
        var members := ReadMembers(s[1..]);
        if members.None? then None else Some((Object(members.value.0), members.value.1))
    else ReadNumber(s)
  }

  function ReadItems(s: string): (r: Option<(seq<Json>, string)>)
    ensures r.Some? ==> |r.value.1| < |s|
    decreases |s|, 2
  {
    var first := ReadValue(s);
    if first.None? || first.value.1 == "" then None
    else if first.value.1[0] == ']' then Some(([first.value.0], first.value.1[1..]))
    else if first.value.1[0] != ',' then None
    else
      var others := ReadItems(first.value.1[1..]);
      if others.None? then None else Some(([first.value.0] + others.value.0, others.value.1))
  }

  /** Members up to the closing brace; of two with the same name the last counts. */
  function ReadMembers(s: string): (r: Option<(map<string, Json>, string)>)
    ensures r.Some? ==> |r.value.1| < |s|
    decreases |s|, 2
  {
    if s == "" || s[0] != '"' then None
    else
      var key := ReadString(s[1..]);
      if key.None? || key.value.1 == "" || key.value.1[0] != ':' then None
      else
        var first := ReadValue(key.value.1[1..]);
        if first.None? || first.value.1 == "" then None
        else if first.value.1[0] == '}' then Some((map[key.value.0 := first.value.0], first.value.1[1..]))
        else if first.value.1[0] != ',' then None
        else
          var others := ReadMembers(first.value.1[1..]);
          if others.None? then None
          else Some((map[key.value.0 := first.value.0] + others.value.0, others.value.1))
  }

  // ---- Strings come back ----

  lemma HexComesBack(n: nat)
    requires n < 16
    ensures HexValue(HexDigit(n)) == Some(n)
  {}

  lemma HexDigitsSum(n: nat)
    requires n < 0x10000
    ensures (n / 4096) * 4096 + (n / 256 % 16) * 256 + (n / 16 % 16) * 16 + n % 16 == n && n / 4096 < 16
  {
    assert n / 256 == n / 4096 * 16 + n / 256 % 16;
    assert n / 16 == n / 256 * 16 + n / 16 % 16;
  }

  lemma FourDigitsComeBack(a: nat, b: nat, c: nat, d: nat, t: string)
    requires a < 16 && b < 16 && c < 16 && d < 16
    ensures ReadHex([HexDigit(a), HexDigit(b), HexDigit(c), HexDigit(d)] + t) == Scalar(a * 4096 + b * 256 + c * 16 + d)
  {
    HexComesBack(a);
    HexComesBack(b);
    HexComesBack(c);
    HexComesBack(d);
  }

  lemma ReadNumbered(s: string, c: char)
    requires |s| >= 6 && s[0] == '\\' && s[1] == 'u' && ReadHex(s[2..]) == Some(c)
    ensures ReadChar(s) == Some((c, s[6..]))
  {}

  lemma ScalarComesBack(c: char)
    requires c as int < 0xD800
    ensures Scalar(c as int) == Some(c)
  {}

  lemma NumberedComesBack(c: char, t: string)
    requires c as int < 0xD800
    ensures ReadChar(Numbered(c) + t) == Some((c, t))
  {
    var n := c as int;
    HexDigitsSum(n);
    ScalarComesBack(c);
    var digits := [HexDigit(n / 4096), HexDigit(n / 256 % 16), HexDigit(n / 16 % 16), HexDigit(n % 16)];
    FourDigitsComeBack(n / 4096, n / 256 % 16, n / 16 % 16, n % 16, t);
    NumberedParts(Numbered(c) + t, digits, t);
    ReadNumbered(Numbered(c) + t, c);
  }

  lemma NumberedParts(s: string, digits: string, t: string)
    requires |digits| == 4 && s == "\\u" + digits + t
    ensures |s| >= 6 && s[0] == '\\' && s[1] == 'u' && s[2..] == digits + t && s[6..] == t
  {}

  lemma CharComesBack(c: char, t: string)
    ensures ReadChar(Escape(c) + t) == Some((c, t)) && (Escape(c) + t)[0] != '"'
  {
    var s := Escape(c) + t;
    if ByNumber(c) && Escape(c) == Numbered(c) {
      NumberedComesBack(c, t);
    } else if |Escape(c)| == 2 {
      assert s[2..] == t;
    } else {
      assert s[1..] == t;
    }
  }

  lemma {:induction false} StringComesBack(text: string, rest: string)
    ensures ReadString(EscapeAll(text) + "\"" + rest) == Some((text, rest))
  {
    var s := EscapeAll(text) + "\"" + rest;
    if text == "" {
      assert s[1..] == rest;
    } else {
      var t := EscapeAll(text[1..]) + "\"" + rest;
      assert s == Escape(text[0]) + t;
      CharComesBack(text[0], t);
      StringComesBack(text[1..], rest);
      assert [text[0]] + text[1..] == text;
    }
  }

  // ---- Values come back ----

  /** A number that is followed by this ends where it ends. */
  predicate Delimited(s: string) { s == "" || !NumberChar(s[0]) }

  lemma {:induction false} TokenEnds(token: string, rest: string)
    requires (forall i :: 0 <= i < |token| ==> NumberChar(token[i])) && Delimited(rest)
    ensures TokenLength(token + rest) == |token|
  {
    if token != "" {
      assert (token + rest)[1..] == token[1..] + rest;
      TokenEnds(token[1..], rest);
    } else {
      assert token + rest == rest;
    }
  }

  lemma {:induction false} DigitsAreNumberChars(s: string)
    ensures forall i :: 0 <= i < DigitsAt(s) ==> '0' <= s[i] <= '9'
  {
    if s != "" && '0' <= s[0] <= '9' {
      DigitsAreNumberChars(s[1..]);
      assert forall i :: 1 <= i < DigitsAt(s) ==> s[i] == s[1..][i - 1];
    }
  }

  lemma ExponentChars(s: string)
    requires IsExponent(s)
    ensures forall i :: 0 <= i < |s| ==> NumberChar(s[i])
  {
    if s != "" {
      var digits := if |s| > 1 && s[1] in "+-" then s[2..] else s[1..];
      DigitsAreNumberChars(digits);
      var k := |s| - |digits|;
      assert forall i :: k <= i < |s| ==> s[i] == digits[i - k];
    }
  }

  lemma FractionChars(s: string)
    requires AfterFraction(s).Some? && IsExponent(AfterFraction(s).value)
    ensures forall i :: 0 <= i < |s| ==> NumberChar(s[i])
  {
    var rest := AfterFraction(s).value;
    ExponentChars(rest);
    if rest != s {
      DigitsAreNumberChars(s[1..]);
      var k := |s| - |rest|;
      assert forall i :: 1 <= i < k ==> s[i] == s[1..][i - 1];
      assert forall i :: k <= i < |s| ==> s[i] == rest[i - k];
    }
  }

  lemma NumberChars(s: string)
    requires IsNumber(s)
    ensures s != "" && (s[0] == '-' || '0' <= s[0] <= '9') && forall i :: 0 <= i < |s| ==> NumberChar(s[i])
  {
    var unsigned := if s != "" && s[0] == '-' then s[1..] else s;
    var k := DigitsAt(unsigned);
    DigitsAreNumberChars(unsigned);
    FractionChars(unsigned[k..]);
    forall i | 0 <= i < |unsigned|
      ensures NumberChar(unsigned[i])
    {
      if i >= k { assert unsigned[i] == unsigned[k..][i - k]; }
    }
    assert forall i :: |s| - |unsigned| <= i < |s| ==> s[i] == unsigned[i - (|s| - |unsigned|)];
  }

  lemma NumberComesBack(token: string, rest: string)
    requires IsNumber(token) && Delimited(rest)
    ensures ReadValue(token + rest) == Some((Number(token), rest))
  {
    NumberChars(token);
    TokenEnds(token, rest);
    var s := token + rest;
    assert s[0] == token[0] && s[..|token|] == token && s[|token|..] == rest;
  }

  /** The first character of a canonical text tells that a value starts here. */
  lemma StartsAValue(v: Json)
    requires Valid(v)
    ensures Canonical(v) != "" && Canonical(v)[0] != ']' && Canonical(v)[0] != '}' && Canonical(v)[0] != ','
  {
    if v.Number? { NumberChars(v.token); }
  }

  /** Reading a canonical text gives the value it was written for, and leaves what follows. */
  lemma {:induction false} ValueComesBack(v: Json, rest: string)
    requires Valid(v) && Delimited(rest)
    ensures ReadValue(Canonical(v) + rest) == Some((v, rest))
    decreases v, 1, 0
  {
    match v {
      case Array(_) => ArrayComesBack(v, rest);
      case Object(_) => ObjectComesBack(v, rest);
      case _ => ScalarValueComesBack(v, rest);
    }
  }

  lemma WordComesBack(word: string, v: Json, rest: string)
    ensures ReadWord(word + rest, word, v) == Some((v, rest))
  {
    assert (word + rest)[|word|..] == rest;
  }

  lemma StringValueComesBack(text: string, rest: string)
    ensures ReadValue(Quote(text) + rest) == Some((String(text), rest))
  {
    var s, tail := Quote(text) + rest, EscapeAll(text) + "\"" + rest;
    Quoted(s, EscapeAll(text), rest, tail);
    StringComesBack(text, rest);
    ReadQuoted(s, tail, text, rest);
  }

  lemma Quoted(s: string, escaped: string, rest: string, tail: string)
    requires s == "\"" + escaped + "\"" + rest && tail == escaped + "\"" + rest
    ensures s == "\"" + tail
  {}

  lemma ReadQuoted(s: string, tail: string, text: string, rest: string)
    requires s == "\"" + tail && ReadString(tail) == Some((text, rest))
    ensures ReadValue(s) == Some((String(text), rest))
  {
    assert s[1..] == tail;
  }

  lemma ScalarValueComesBack(v: Json, rest: string)
    requires Valid(v) && Delimited(rest) && !v.Array? && !v.Object?
    ensures ReadValue(Canonical(v) + rest) == Some((v, rest))
  {
    match v {
      case Null => WordComesBack("null", v, rest);
      case Bool(value) => WordComesBack(if value then "true" else "false", v, rest);
      case Number(token) => NumberComesBack(token, rest);
      case String(text) => StringValueComesBack(text, rest);
    }
  }

  lemma ArrayText(v: Json, rest: string)
    requires v.Array? && v.items != []
    ensures Canonical(v) + rest == "[" + ItemsText(v, 0, rest)
  {
    var first, others := Canonical(v.items[0]), Items(v, 1);
    assert Items(v, 0) == "" + (first + others) == first + others;
    assert "[" + (first + others) + "]" + rest == "[" + (first + others + "]" + rest);
  }

  lemma EmptyComesBack(v: Json, rest: string)
    requires v == Array([]) || v == Object(map[])
    ensures ReadValue(Canonical(v) + rest) == Some((v, rest))
  {
    var s := Canonical(v) + rest;
    if v.Array? {
      assert Items(v, 0) == "" && s == "[]" + rest;
    } else {
      assert Sorted(v.members.Keys) == [] && Members(v, []) == "" && s == "{}" + rest;
    }
    assert s[2..] == rest;
  }

  lemma {:induction false} ArrayComesBack(v: Json, rest: string)
    requires v.Array? && Valid(v)
    ensures ReadValue(Canonical(v) + rest) == Some((v, rest))
    decreases v, 0, |v.items| + 1
  {
    if v.items == [] {
      EmptyComesBack(v, rest);
    } else {
      var body := ItemsText(v, 0, rest);
      ArrayText(v, rest);
      ArrayStarts(v, rest);
      ItemsComeBack(v, 0, rest);
      assert v.items[0..] == v.items;
      ReadArray("[" + body, body);
    }
  }

  lemma ArrayStarts(v: Json, rest: string)
    requires v.Array? && v.items != [] && Valid(v)
    ensures ItemsText(v, 0, rest) != "" && ItemsText(v, 0, rest)[0] != ']'
  {
    StartsAValue(v.items[0]);
  }

  lemma ReadArray(s: string, body: string)
    requires s == "[" + body && body != "" && body[0] != ']'
    ensures ReadItems(body).Some? ==> ReadValue(s) == Some((Array(ReadItems(body).value.0), ReadItems(body).value.1))
  {
    assert s[1..] == body && s[0] == '[';
  }

  lemma ReadObject(s: string, body: string)
    requires s == "{" + body && body != "" && body[0] != '}'
    ensures ReadMembers(body).Some? ==>
              ReadValue(s) == Some((Object(ReadMembers(body).value.0), ReadMembers(body).value.1))
  {
    assert s[1..] == body && s[0] == '{';
  }

  lemma ObjectText(v: Json, rest: string, body: string)
    requires v.Object? && v.members != map[]
    requires var keys := Sorted(v.members.Keys);
             keys != [] && body == Member(v, keys[0]) + Members(v, keys[1..]) + "}" + rest
    ensures Canonical(v) + rest == "{" + body
  {
    var keys := Sorted(v.members.Keys);
    var first, others := Member(v, keys[0]), Members(v, keys[1..]);
    assert Members(v, keys) == first + others by {
      assert |v.members| == |v.members.Keys|;
      MembersStart(v, keys);
    }
    Enclosed(Members(v, keys), first, others, rest);
  }

  lemma Enclosed(members: string, first: string, others: string, rest: string)
    requires members == first + others
    ensures "{" + members + "}" + rest == "{" + (first + others + "}" + rest)
  {}

  lemma {:induction false} ObjectComesBack(v: Json, rest: string)
    requires v.Object? && Valid(v)
    ensures ReadValue(Canonical(v) + rest) == Some((v, rest))
    decreases v, 0, |v.members| + 1
  {
    var keys := Sorted(v.members.Keys);
    assert |v.members| == |v.members.Keys|;
    if v.members == map[] {
      EmptyComesBack(v, rest);
    } else {
      var body := Member(v, keys[0]) + Members(v, keys[1..]) + "}" + rest;
      ObjectText(v, rest, body);
      AscendingAreDistinct(keys);
      MembersComeBack(v, keys, rest);
      assert Restrict(v.members, keys) == v.members;
      assert body[0] == '"';
      ReadObject("{" + body, body);
    }
  }

  /** Reading on after an item: the array ends, or the others follow. */
  lemma ReadItem(s: string, x: Json, tail: string, last: bool, t: string, others: seq<Json>, rest: string)
    requires ReadValue(s) == Some((x, tail))
    requires if last then tail == "]" + rest && others == []
             else tail == "," + t && ReadItems(t) == Some((others, rest))
    ensures ReadItems(s) == Some(([x] + others, rest))
  {
    if last {
      assert tail[1..] == rest && [x] + others == [x];
    } else {
      assert tail[1..] == t;
    }
  }

  /** What is left of an array's text from item i on, its comma not counted. */
  ghost function ItemsText(v: Json, i: nat, rest: string): string
    requires v.Array? && i < |v.items|
  {
    Canonical(v.items[i]) + Items(v, i + 1) + "]" + rest
  }

  lemma ItemsTail(v: Json, i: nat, rest: string)
    requires v.Array? && i < |v.items|
    ensures ItemsText(v, i, rest) == Canonical(v.items[i]) + (Items(v, i + 1) + "]" + rest)
    ensures i + 1 == |v.items| ==> Items(v, i + 1) + "]" + rest == "]" + rest
    ensures i + 1 < |v.items| ==> Items(v, i + 1) + "]" + rest == "," + ItemsText(v, i + 1, rest)
  {
    if i + 1 < |v.items| {
      var c, others := Canonical(v.items[i + 1]), Items(v, i + 2);
      assert "," + (c + others) + "]" + rest == "," + (c + others + "]" + rest);
    }
  }

  lemma ItemsDelimit(v: Json, i: nat, rest: string)
    requires v.Array? && i < |v.items|
    ensures Delimited(Items(v, i + 1) + "]" + rest)
  {
    if i + 1 < |v.items| {
      ItemsTail(v, i, rest);
    }
  }

  /** One item, in front of what is left. */
  lemma {:induction false} ItemComesBack(v: Json, i: nat, rest: string, s: string, tail: string)
    requires v.Array? && Valid(v) && i < |v.items|
    requires s == ItemsText(v, i, rest) && tail == Items(v, i + 1) + "]" + rest
    ensures ReadValue(s) == Some((v.items[i], tail))
    decreases v, 0, 0
  {
    assert s == Canonical(v.items[i]) + tail by { ItemsTail(v, i, rest); }
    ItemsDelimit(v, i, rest);
    ValueComesBack(v.items[i], tail);
  }

  lemma {:induction false} ItemsComeBack(v: Json, i: nat, rest: string)
    requires v.Array? && Valid(v) && i < |v.items|
    ensures ReadItems(ItemsText(v, i, rest)) == Some((v.items[i..], rest))
    decreases v, 0, |v.items| - i
  {
    var s, tail, x := ItemsText(v, i, rest), Items(v, i + 1) + "]" + rest, v.items[i];
    ItemComesBack(v, i, rest, s, tail);
    assert v.items[i..] == [x] + v.items[i + 1..];
    if i + 1 == |v.items| {
      assert tail == "]" + rest by { ItemsTail(v, i, rest); }
      ReadItem(s, x, tail, true, "", v.items[i + 1..], rest);
    } else {
      var t := ItemsText(v, i + 1, rest);
      assert tail == "," + t by { ItemsTail(v, i, rest); }
      ItemsComeBack(v, i + 1, rest);
      ReadItem(s, x, tail, false, t, v.items[i + 1..], rest);
    }
  }

  function Restrict(members: map<string, Json>, keys: seq<string>): map<string, Json> {
    map key | key in members && key in keys :: members[key]
  }

  lemma AscendingAreDistinct(keys: seq<string>)
    requires Ascending(keys)
    ensures forall i, j :: 0 <= i < j < |keys| ==> keys[i] != keys[j]
  {
    forall i, j | 0 <= i < j < |keys|
      ensures keys[i] != keys[j]
    {
      LessIrreflexive(keys[i]);
    }
  }

  lemma ReadLastMember(s: string, key: string, x: Json, afterKey: string, rest: string)
    requires s == Quote(key) + ":" + afterKey && ReadValue(afterKey) == Some((x, "}" + rest))
    ensures ReadMembers(s) == Some((map[key := x], rest))
  {
    KeyComesBack(s, key, afterKey);
    assert (":" + afterKey)[1..] == afterKey && ("}" + rest)[1..] == rest;
  }

  lemma ReadNextMember(s: string, key: string, x: Json, afterKey: string, t: string, others: map<string, Json>,
                       rest: string)
    requires s == Quote(key) + ":" + afterKey && ReadValue(afterKey) == Some((x, "," + t))
    requires ReadMembers(t) == Some((others, rest))
    ensures ReadMembers(s) == Some((map[key := x] + others, rest))
  {
    KeyComesBack(s, key, afterKey);
    assert (":" + afterKey)[1..] == afterKey && ("," + t)[1..] == t;
  }

  lemma KeyComesBack(s: string, key: string, afterKey: string)
    requires s == Quote(key) + ":" + afterKey
    ensures s != "" && s[0] == '"' && ReadString(s[1..]) == Some((key, ":" + afterKey))
  {
    assert s[1..] == EscapeAll(key) + "\"" + (":" + afterKey);
    StringComesBack(key, ":" + afterKey);
  }

  lemma MembersStart(v: Json, keys: seq<string>)
    requires v.Object? && 0 < |keys| <= |v.members| && forall key :: key in keys ==> key in v.members
    ensures Members(v, keys) ==
            (if |keys| < |v.members| then "," else "") + (Member(v, keys[0]) + Members(v, keys[1..]))
  {}

  lemma RestrictOne(members: map<string, Json>, keys: seq<string>)
    requires keys != [] && forall key :: key in keys ==> key in members
    requires forall i, j :: 0 <= i < j < |keys| ==> keys[i] != keys[j]
    ensures Restrict(members, keys) == map[keys[0] := members[keys[0]]] + Restrict(members, keys[1..])
    ensures |keys| == 1 ==> Restrict(members, keys) == map[keys[0] := members[keys[0]]]
  {
    assert forall key :: key in keys <==> key == keys[0] || key in keys[1..];
  }

  lemma {:induction false} MembersComeBack(v: Json, keys: seq<string>, rest: string)
    requires v.Object? && Valid(v) && 0 < |keys| <= |v.members| && forall key :: key in keys ==> key in v.members
    requires forall i, j :: 0 <= i < j < |keys| ==> keys[i] != keys[j]
    ensures ReadMembers(Member(v, keys[0]) + Members(v, keys[1..]) + "}" + rest) ==
            Some((Restrict(v.members, keys), rest))
    decreases v, 0, |keys|
  {
    var key, x := keys[0], v.members[keys[0]];
    var tail := Members(v, keys[1..]) + "}" + rest;
    var s := Member(v, key) + Members(v, keys[1..]) + "}" + rest;
    var afterKey := Canonical(x) + tail;
    MemberText(v, key, Members(v, keys[1..]), rest);
    RestrictOne(v.members, keys);
    if |keys| == 1 {
      assert Members(v, keys[1..]) == "";
      assert tail == "}" + rest;
      ValueComesBack(x, tail);
      ReadLastMember(s, key, x, afterKey, rest);
    } else {
      var others := keys[1..];
      var t := Member(v, others[0]) + Members(v, others[1..]) + "}" + rest;
      NextText(v, others, rest);
      ValueComesBack(x, tail);
      MembersComeBack(v, others, rest);
      ReadNextMember(s, key, x, afterKey, t, Restrict(v.members, others), rest);
    }
  }

  lemma MemberText(v: Json, key: string, others: string, rest: string)
    requires v.Object? && key in v.members
    ensures Member(v, key) + others + "}" + rest ==
            Quote(key) + ":" + (Canonical(v.members[key]) + (others + "}" + rest))
  {
    var q, c := Quote(key), Canonical(v.members[key]);
    assert q + ":" + c + others + "}" + rest == q + ":" + (c + (others + "}" + rest));
  }

  lemma NextText(v: Json, keys: seq<string>, rest: string)
    requires v.Object? && 0 < |keys| < |v.members| && forall key :: key in keys ==> key in v.members
    ensures Members(v, keys) + "}" + rest == "," + (Member(v, keys[0]) + Members(v, keys[1..]) + "}" + rest)
  {
    MembersStart(v, keys);
    var first, others := Member(v, keys[0]), Members(v, keys[1..]);
    assert "," + (first + others) + "}" + rest == "," + (first + others + "}" + rest);
  }

  /** The canonical text determines the value: equal texts, equal values. */
  lemma CanonicalDetermines(a: Json, b: Json)
    requires Valid(a) && Valid(b)
    ensures Canonical(a) == Canonical(b) <==> a == b
  {
    ValueComesBack(a, "");
    ValueComesBack(b, "");
    assert Canonical(a) + "" == Canonical(a) && Canonical(b) + "" == Canonical(b);
  }

  // ---- Writing it ----

  /** The growing output that the recursive writer shares. */
  class Buffer {
    var text: string

    constructor ()
      ensures text == ""
    {
      text := "";
    }

    method Write(s: string)
      modifies this
      ensures text == old(text) + s
    {
      text := text + s;
    }
  }

  /** Append the canonical text of a value, members in byte order of their names, in whatever
      order the map hands them out. */
  method WriteCanonical(buf: Buffer, v: Json)
    modifies buf
    ensures buf.text == old(buf.text) + Canonical(v)
    decreases v, 1, 0
  {
    match v {
      case Null => buf.Write("null");
      case Bool(value) => buf.Write(if value then "true" else "false");
      case Number(token) => buf.Write(token);
      case String(text) => buf.Write(Quote(text));
      case Array(_) => WriteArray(buf, v);
      case Object(_) => WriteObject(buf, v);
    }
  }

  method WriteArray(buf: Buffer, v: Json)
    requires v.Array?
    modifies buf
    ensures buf.text == old(buf.text) + Canonical(v)
    decreases v, 0, 1
  {
    buf.Write("[");
    ghost var start := buf.text;
    var i := 0;
    while i < |v.items|
      invariant 0 <= i <= |v.items|
      invariant buf.text + Items(v, i) == start + Items(v, 0)
    {
      ghost var before := buf.text;
      if i > 0 { buf.Write(","); }
      WriteCanonical(buf, v.items[i]);
      Regroup(before, if i > 0 then "," else "", Canonical(v.items[i]), Items(v, i + 1));
      i := i + 1;
    }
    assert buf.text == start + Items(v, 0);
    buf.Write("]");
    Close(old(buf.text), "[", Items(v, 0), "]");
  }

  lemma Close(before: string, open: string, body: string, close: string)
    ensures before + open + body + close == before + (open + body + close)
  {}

  method WriteMember(buf: Buffer, v: Json, key: string)
    requires v.Object? && key in v.members
    modifies buf
    ensures buf.text == old(buf.text) + Member(v, key)
    decreases v, 0, 0
  {
    buf.Write(Quote(key));
    buf.Write(":");
    WriteCanonical(buf, v.members[key]);
  }

  method WriteObject(buf: Buffer, v: Json)
    requires v.Object?
    modifies buf
    ensures buf.text == old(buf.text) + Canonical(v)
    decreases v, 0, 1
  {
    var keys := SortKeys(v.members.Keys);
    SortedUnique(keys, Sorted(v.members.Keys), v.members.Keys);
    assert |v.members| == |v.members.Keys|;
    buf.Write("{");
    ghost var start := buf.text;
    var i := 0;
    while i < |keys|
      invariant 0 <= i <= |keys|
      invariant buf.text + Members(v, keys[i..]) == start + Members(v, keys)
    {
      ghost var before := buf.text;
      if i > 0 { buf.Write(","); }
      WriteMember(buf, v, keys[i]);
      WroteMember(v, keys, i, before, buf.text);
      i := i + 1;
    }
    assert buf.text == start + Members(v, keys);
    buf.Write("}");
    Close(old(buf.text), "{", Members(v, keys), "}");
  }

  lemma WroteMember(v: Json, keys: seq<string>, i: nat, before: string, after: string)
    requires v.Object? && i < |keys| == |v.members| && forall key :: key in keys ==> key in v.members
    requires after == before + (if i > 0 then "," else "") + Member(v, keys[i])
    ensures before + Members(v, keys[i..]) == after + Members(v, keys[i + 1..])
  {
    var left := keys[i..];
    MembersStart(v, left);
    assert left[1..] == keys[i + 1..] && left[0] == keys[i];
    Regroup(before, if i > 0 then "," else "", Member(v, keys[i]), Members(v, keys[i + 1..]));
  }

  lemma Regroup(a: string, b: string, c: string, d: string)
    ensures a + (b + (c + d)) == a + b + c + d
  {}

  method CanonicalJSON(v: Json) returns (text: string)
    ensures text == Canonical(v)
    ensures Valid(v) ==> ReadValue(text) == Some((v, ""))
  {
    var buf := new Buffer();
    WriteCanonical(buf, v);
    text := buf.text;
    if Valid(v) {
      ValueComesBack(v, "");
      assert Canonical(v) + "" == Canonical(v);
    }
  }
}

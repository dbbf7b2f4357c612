/** JSON values and the canonical printer `json.dumps(v, sort_keys=True, separators=(",", ":"), ensure_ascii=True)`,
    with the proof that the printed text determines the value. An object is a map, so key order is not part of it. */
module Json {
  import opened Prelude

  datatype Json =
    | JNull
    | JBool(b: bool)
    | JInt(n: int)
    | JFloat(text: FloatText)
    | JStr(s: string)
    | JArr(items: seq<Json>)
    | JObj(fields: map<string, Json>)

  predicate NumberChar(c: char) { '0' <= c <= '9' || c in "-+.e" }

  /** The `repr` of a finite float: `1.5`, `-0.0`, `1e+16`. It is told from an integer by a dot or an exponent. */
  predicate IsFloatText(t: string) {
    && t != [] && (t[0] == '-' || '0' <= t[0] <= '9')
    && (forall c :: c in t ==> NumberChar(c))
    && ('.' in t || 'e' in t)
  }
  type FloatText = t: string | IsFloatText(t) witness "0.0"

  // ---------------------------------------------------------------- text

  lemma Assoc(a: string, b: string, c: string)
    ensures (a + b) + c == a + (b + c)
  {
  }

  lemma Cancel(p: string, r: string, q: string, t: string)
    requires p + r == q + t && |p| == |q|
    ensures p == q && r == t
  {
    assert p == (p + r)[..|p|] == (q + t)[..|p|] == q;
    assert r == (p + r)[|p|..] == (q + t)[|p|..] == t;
  }

  // ---------------------------------------------------------------- numbers

  function DigitChar(d: int): char
    requires 0 <= d < 10
  {
    "0123456789"[d]
  }

  function Digits(n: nat): (r: string)
    ensures r != [] && forall c :: c in r ==> '0' <= c <= '9'
  {
    if n < 10 then [DigitChar(n)] else Digits(n / 10) + [DigitChar(n % 10)]
  }

  lemma DigitCharInjective(a: int, b: int)
    requires 0 <= a < 10 && 0 <= b < 10 && DigitChar(a) == DigitChar(b)
    ensures a == b
  {
  }

  lemma {:induction false} DigitsInjective(m: nat, n: nat)
    requires Digits(m) == Digits(n)
    ensures m == n
  {
    assert |Digits(m)| > 1 <==> m >= 10;
    assert |Digits(n)| > 1 <==> n >= 10;
    if m >= 10 {
      Cancel(Digits(m / 10), [DigitChar(m % 10)], Digits(n / 10), [DigitChar(n % 10)]);
      DigitsInjective(m / 10, n / 10);
    }
    DigitCharInjective(m % 10, n % 10);
  }

  /** The number that a row of digits stands for. */
  function Value(digits: string): int {
    if digits == [] then 0 else 10 * Value(digits[..|digits| - 1]) + (digits[|digits| - 1] as int - '0' as int)
  }

  /** Digits are decimal, without leading zeros. */
  lemma {:induction false} DigitsAreDecimal(n: nat)
    ensures Value(Digits(n)) == n && (n > 0 ==> Digits(n)[0] != '0')
  {
    var d := Digits(n);
    assert forall k :: 0 <= k < 10 ==> DigitChar(k) as int == '0' as int + k;
    if n < 10 {
      assert d[..0] == [] && Value([]) == 0;
    } else {
      DigitsAreDecimal(n / 10);
      assert d[..|d| - 1] == Digits(n / 10);
    }
  }

  lemma DigitsStart(n: nat)
    ensures '0' <= Digits(n)[0] <= '9'
  {
    assert Digits(n)[0] in Digits(n);
  }

  function PrintInt(n: int): string {
    if n < 0 then "-" + Digits(-n) else Digits(n)
  }

  // ---------------------------------------------------------------- strings

  function HexChar(d: int): (c: char)
    requires 0 <= d < 16
    ensures '0' <= c <= '9' || 'a' <= c <= 'f'
  {
    "0123456789abcdef"[d]
  }

  /** `n` in hexadecimal, padded to `width` digits. */
  function Hex(n: nat, width: nat): (r: string)
    ensures |r| == width
    ensures forall i :: 0 <= i < |r| ==> '0' <= r[i] <= '9' || 'a' <= r[i] <= 'f'
    decreases width
  {
    if width == 0 then [] else Hex(n / 16, width - 1) + [HexChar(n % 16)]
  }

  function Pow16(w: nat): (r: nat)
    ensures r > 0
  {
    if w == 0 then 1 else 16 * Pow16(w - 1)
  }

  lemma HexCharInjective(a: int, b: int)
    requires 0 <= a < 16 && 0 <= b < 16 && HexChar(a) == HexChar(b)
    ensures a == b
  {
  }

  lemma {:induction false} HexInjective(m: nat, n: nat, width: nat)
    requires m < Pow16(width) && n < Pow16(width) && Hex(m, width) == Hex(n, width)
    ensures m == n
    decreases width
  {
    if width > 0 {
      Cancel(Hex(m / 16, width - 1), [HexChar(m % 16)], Hex(n / 16, width - 1), [HexChar(n % 16)]);
      HexCharInjective(m % 16, n % 16);
      HexInjective(m / 16, n / 16, width - 1);
    }
  }

  /** The escape `\uXXXX` of one UTF-16 code unit. */
  function Unit(n: nat): (r: string)
    ensures |r| == 6
  {
    "\\u" + Hex(n, 4)
  }

  lemma UnitPrefixFree(m: nat, n: nat, r: string, t: string)
    requires m < 0x1_0000 && n < 0x1_0000 && Unit(m) + r == Unit(n) + t
    ensures m == n && r == t
  {
    Cancel(Unit(m), r, Unit(n), t);
    Cancel("\\u", Hex(m, 4), "\\u", Hex(n, 4));
    assert Pow16(4) == 16 * Pow16(3) == 256 * Pow16(2) == 4096 * Pow16(1);
    HexInjective(m, n, 4);
  }

  function HighUnit(c: char): (n: nat)
    requires c >= '\U{10000}'
    ensures 0xD800 <= n < 0xDC00
  {
    0xD800 + (c as int - 0x1_0000) / 0x400
  }

  function LowUnit(c: char): (n: nat)
    requires c >= '\U{10000}'
    ensures 0xDC00 <= n < 0xE000
  {
    0xDC00 + (c as int - 0x1_0000) % 0x400
  }

  predicate Printable(c: char) { ' ' <= c <= '~' && c != '\"' && c != '\\' }
  predicate Short(c: char) {
    c == '\"' || c == '\\' || c == '\n' || c == '\r' || c == '\t' || c == '\U{0008}' || c == '\U{000C}'
  }

  function Mnemonic(c: char): char
    requires Short(c)
  {
    if c == '\n' then 'n' else if c == '\r' then 'r' else if c == '\t' then 't'
    else if c == '\U{0008}' then 'b' else if c == '\U{000C}' then 'f' else c
  }

  function Escape(c: char): (e: string)
    ensures e != [] && e[0] != '\"'
  {
    if Printable(c) then [c]
    else if Short(c) then ['\\', Mnemonic(c)]
    else if c < '\U{10000}' then Unit(c as int)
    else Unit(HighUnit(c)) + Unit(LowUnit(c))
  }

  function EscapeAll(s: string): string {
    if s == [] then [] else Escape(s[0]) + EscapeAll(s[1..])
  }

  function PrintStr(s: string): string {
    "\"" + EscapeAll(s) + "\""
  }

  lemma EscapeStart(c: char, r: string)
    ensures (Escape(c) + r)[0] == Escape(c)[0]
    ensures Printable(c) <==> Escape(c)[0] != '\\'
    ensures !Printable(c) ==> |Escape(c)| >= 2 && (Escape(c) + r)[1] == Escape(c)[1]
    ensures !Printable(c) ==> (Short(c) <==> Escape(c)[1] != 'u')
  {
  }

  /** The code units of a character that is escaped by number, and what follows the first of them. */
  function FirstUnit(c: char): nat {
    if c < '\U{10000}' then c as int else HighUnit(c)
  }

  function AfterFirstUnit(c: char, r: string): string {
    if c < '\U{10000}' then r else Unit(LowUnit(c)) + r
  }

  lemma SurrogatesInjective(c: char, d: char)
    requires c >= '\U{10000}' && d >= '\U{10000}' && HighUnit(c) == HighUnit(d) && LowUnit(c) == LowUnit(d)
    ensures c == d
  {
  }

  lemma UnitsPrefixFree(c: char, d: char, r: string, t: string)
    requires Unit(FirstUnit(c)) + AfterFirstUnit(c, r) == Unit(FirstUnit(d)) + AfterFirstUnit(d, t)
    ensures c == d && r == t
  {
    UnitPrefixFree(FirstUnit(c), FirstUnit(d), AfterFirstUnit(c, r), AfterFirstUnit(d, t));
    if c >= '\U{10000}' {
      assert d >= '\U{10000}';
      UnitPrefixFree(LowUnit(c), LowUnit(d), r, t);
      SurrogatesInjective(c, d);
    }
  }

  lemma EscapeUnits(c: char, r: string)
    requires !Printable(c) && !Short(c)
    ensures Escape(c) + r == Unit(FirstUnit(c)) + AfterFirstUnit(c, r)
  {
    if c >= '\U{10000}' {
      assert (Unit(HighUnit(c)) + Unit(LowUnit(c))) + r == Unit(HighUnit(c)) + (Unit(LowUnit(c)) + r);
    }
  }

  /** No escape is a prefix of another, so the first character can be read back. */
  lemma EscapePrefixFree(c: char, d: char, r: string, t: string)
    requires Escape(c) + r == Escape(d) + t
    ensures c == d && r == t
  {
    EscapeStart(c, r);
    EscapeStart(d, t);
    if Printable(c) {
      assert Escape(c) == [c] && Escape(d) == [d];
      Cancel([c], r, [d], t);
    } else if Short(c) {
      assert Escape(c) == ['\\', Mnemonic(c)] && Escape(d) == ['\\', Mnemonic(d)];
      Cancel(Escape(c), r, Escape(d), t);
      assert Mnemonic(c) == Escape(c)[1] == Escape(d)[1] == Mnemonic(d);
    } else {
      EscapeUnits(c, r);
      EscapeUnits(d, t);
      UnitsPrefixFree(c, d, r, t);
    }
  }

  lemma {:induction false} StringPrefixFree(s: string, t: string, r: string, u: string)
    requires EscapeAll(s) + ("\"" + r) == EscapeAll(t) + ("\"" + u)
    ensures s == t && r == u
  {
    if s == [] || t == [] {
      assert (EscapeAll(s) + ("\"" + r))[0] == (EscapeAll(t) + ("\"" + u))[0];
      assert s == [] && t == [] && EscapeAll(s) + ("\"" + r) == "\"" + r && EscapeAll(t) + ("\"" + u) == "\"" + u;
      Cancel("\"", r, "\"", u);
    } else {
      var sr, tu := EscapeAll(s[1..]) + ("\"" + r), EscapeAll(t[1..]) + ("\"" + u);
      Assoc(Escape(s[0]), EscapeAll(s[1..]), "\"" + r);
      Assoc(Escape(t[0]), EscapeAll(t[1..]), "\"" + u);
      EscapePrefixFree(s[0], t[0], sr, tu);
      StringPrefixFree(s[1..], t[1..], r, u);
      assert s == [s[0]] + s[1..] && t == [t[0]] + t[1..];
    }
  }

  // ---------------------------------------------------------------- values

  function Print(v: Json): string
    decreases v
  {
    match v
    case JNull => "null"
    case JBool(b) => if b then "true" else "false"
    case JInt(n) => PrintInt(n)
    case JFloat(t) => t
    case JStr(s) => PrintStr(s)
    case JArr(items) => "[" + PrintItems(items) + "]"
    case JObj(fields) => "{" + PrintFields(v, Sorted(fields.Keys)) + "}"
  }

  function PrintItems(items: seq<Json>): string
    decreases items
  {
    if items == [] then ""
    else if |items| == 1 then Print(items[0])
    else Print(items[0]) + "," + PrintItems(items[1..])
  }

  function PrintFields(v: Json, keys: seq<string>): string
    requires v.JObj? && forall k :: k in keys ==> k in v.fields
    decreases v, |keys|
  {
    if keys == [] then ""
    else
      var first := PrintStr(keys[0]) + ":" + Print(v.fields[keys[0]]);
      if |keys| == 1 then first else first + "," + PrintFields(v, keys[1..])
  }

  lemma PrintIntInjective(m: int, n: int)
    requires PrintInt(m) == PrintInt(n)
    ensures m == n
  {
    var a: nat, b: nat := if m < 0 then -m else m, if n < 0 then -n else n;
    DigitsStart(a);
    DigitsStart(b);
    assert m < 0 <==> PrintInt(m)[0] == '-';
    assert n < 0 <==> PrintInt(n)[0] == '-';
    if m < 0 {
      Cancel("-", Digits(a), "-", Digits(b));
    }
    DigitsInjective(a, b);
  }

  /** What may follow a value inside a larger document. */
  predicate Delimited(r: string) {
    r == [] || r[0] in ",]}"
  }

  predicate IsNumber(v: Json) { v.JInt? || v.JFloat? }

  lemma PrintStart(v: Json)
    ensures Print(v) != []
    ensures var c := Print(v)[0];
      match v
      case JNull => c == 'n'
      case JBool(b) => c == if b then 't' else 'f'
      case JInt(_) => c == '-' || '0' <= c <= '9'
      case JFloat(_) => c == '-' || '0' <= c <= '9'
      case JStr(_) => c == '\"'
      case JArr(_) => c == '['
      case JObj(_) => c == '{'
  {
    if v.JInt? && v.n >= 0 { assert Digits(v.n)[0] in Digits(v.n); }
  }

  lemma NumberToken(v: Json, c: char)
    requires IsNumber(v) && c in Print(v)
    ensures NumberChar(c)
    ensures v.JInt? ==> c != '.' && c != 'e'
  {
    if v.JInt? && c != '-' {
      assert c in Digits(if v.n < 0 then -v.n else v.n);
    }
  }

  lemma NumberPrefixFree(v: Json, w: Json, r: string, u: string)
    requires IsNumber(v) && IsNumber(w) && Delimited(r) && Delimited(u)
    requires Print(v) + r == Print(w) + u
    ensures v == w && r == u
  {
    var x, a, b := Print(v) + r, |Print(v)|, |Print(w)|;
    if a < b {
      assert x[a] == (Print(w) + u)[a] == Print(w)[a] && x[a] == r[0];
      NumberToken(w, x[a]);
    } else if b < a {
      assert x[b] == Print(v)[b] && x[b] == (Print(w) + u)[b] == u[0];
      NumberToken(v, x[b]);
    }
    Cancel(Print(v), r, Print(w), u);
    if v.JInt? && w.JInt? {
      PrintIntInjective(v.n, w.n);
    } else if v.JInt? != w.JInt? {
      var i := if v.JInt? then v else w;
      if '.' in Print(i) { NumberToken(i, '.'); } else { NumberToken(i, 'e'); }
    }
  }

  /** The rest of an array body after its first value, and of an object body after its first field. */
  function ItemsTail(items: seq<Json>, r: string): string
    requires items != []
  {
    if |items| == 1 then "]" + r else "," + (PrintItems(items[1..]) + ("]" + r))
  }

  function FieldsTail(v: Json, keys: seq<string>, r: string): string
    requires keys != [] && v.JObj? && forall k :: k in keys ==> k in v.fields
  {
    if |keys| == 1 then "}" + r else "," + (PrintFields(v, keys[1..]) + ("}" + r))
  }

  lemma ItemsUnfold(items: seq<Json>, r: string)
    requires items != []
    ensures PrintItems(items) + ("]" + r) == Print(items[0]) + ItemsTail(items, r)
  {
    if |items| > 1 {
      var p, q, t := Print(items[0]), PrintItems(items[1..]), "]" + r;
      Assoc(p + ",", q, t);
      Assoc(p, ",", q + t);
    }
  }

  lemma FieldsUnfold(v: Json, keys: seq<string>, r: string)
    requires keys != [] && v.JObj? && forall k :: k in keys ==> k in v.fields
    ensures PrintFields(v, keys) + ("}" + r) ==
      "\"" + (EscapeAll(keys[0]) + ("\"" + (":" + (Print(v.fields[keys[0]]) + FieldsTail(v, keys, r)))))
  {
    var e, p, t := EscapeAll(keys[0]), Print(v.fields[keys[0]]), FieldsTail(v, keys, r);
    var first := PrintStr(keys[0]) + ":" + p;
    if |keys| > 1 {
      var q, z := PrintFields(v, keys[1..]), "}" + r;
      Assoc(first + ",", q, z);
      Assoc(first, ",", q + z);
    }
    assert PrintFields(v, keys) + ("}" + r) == first + t;
    FieldHeader(e, p, t);
  }

  lemma Bracketed(open: string, body: string, close: string, r: string)
    ensures (open + body + close) + r == open + (body + (close + r))
  {
    Assoc(open + body, close, r);
    Assoc(open, body, close + r);
  }

  lemma SameFields(a: map<string, Json>, b: map<string, Json>)
    requires Sorted(a.Keys) == Sorted(b.Keys)
    requires forall k :: k in Sorted(a.Keys) ==> a[k] == b[k]
    ensures a == b
  {
    assert forall k :: k in a.Keys <==> k in Sorted(a.Keys);
    assert forall k :: k in b.Keys <==> k in Sorted(b.Keys);
    assert a.Keys == b.Keys;
  }

  lemma FieldHeader(e: string, p: string, t: string)
    ensures ("\"" + e + "\"" + ":" + p) + t == "\"" + (e + ("\"" + (":" + (p + t))))
  {
    Assoc("\"" + e + "\"" + ":", p, t);
    Assoc("\"" + e + "\"", ":", p + t);
    Assoc("\"" + e, "\"", ":" + (p + t));
    Assoc("\"", e, "\"" + (":" + (p + t)));
  }

  /** Printed values are a prefix code: a document that starts with a value and a delimiter starts with that value
      only. */
  lemma {:induction false} PrintPrefixFree(v: Json, w: Json, r: string, u: string)
    requires Delimited(r) && Delimited(u)
    requires Print(v) + r == Print(w) + u
    ensures v == w && r == u
    decreases v
  {
    PrintStart(v);
    PrintStart(w);
    assert (Print(v) + r)[0] == Print(v)[0] && (Print(w) + u)[0] == Print(w)[0];
    if IsNumber(v) {
      NumberPrefixFree(v, w, r, u);
    } else {
      match v
      case JNull => Cancel(Print(v), r, Print(w), u);
      case JBool(b) => Cancel(Print(v), r, Print(w), u);
      case JStr(s) =>
        var e, f := EscapeAll(s), EscapeAll(w.s);
        Bracketed("\"", e, "\"", r);
        Bracketed("\"", f, "\"", u);
        Cancel("\"", e + ("\"" + r), "\"", f + ("\"" + u));
        StringPrefixFree(s, w.s, r, u);
      case JArr(items) =>
        var e, f := PrintItems(items), PrintItems(w.items);
        Bracketed("[", e, "]", r);
        Bracketed("[", f, "]", u);
        Cancel("[", e + ("]" + r), "[", f + ("]" + u));
        ItemsPrefixFree(items, w.items, r, u);
      case JObj(fields) =>
        var ks, ls := Sorted(fields.Keys), Sorted(w.fields.Keys);
        var e, f := PrintFields(v, ks), PrintFields(w, ls);
        Bracketed("{", e, "}", r);
        Bracketed("{", f, "}", u);
        Cancel("{", e + ("}" + r), "{", f + ("}" + u));
        FieldsPrefixFree(v, w, ks, ls, r, u);
        SameFields(fields, w.fields);
      case _ =>
    }
  }

  lemma {:induction false} ItemsPrefixFree(a: seq<Json>, b: seq<Json>, r: string, u: string)
    requires PrintItems(a) + ("]" + r) == PrintItems(b) + ("]" + u)
    ensures a == b && r == u
    decreases a
  {
    if a != [] { ItemsUnfold(a, r); PrintStart(a[0]); assert (Print(a[0]) + ItemsTail(a, r))[0] == Print(a[0])[0]; }
    if b != [] { ItemsUnfold(b, u); PrintStart(b[0]); assert (Print(b[0]) + ItemsTail(b, u))[0] == Print(b[0])[0]; }
    if a == [] || b == [] {
      assert (PrintItems([]) + ("]" + r))[0] == ']' && (PrintItems([]) + ("]" + u))[0] == ']';
      assert a == [] && b == [] && PrintItems(a) + ("]" + r) == "]" + r && PrintItems(b) + ("]" + u) == "]" + u;
      Cancel("]", r, "]", u);
    } else {
      PrintPrefixFree(a[0], b[0], ItemsTail(a, r), ItemsTail(b, u));
      assert ItemsTail(a, r)[0] == ItemsTail(b, u)[0];
      assert a == [a[0]] + a[1..] && b == [b[0]] + b[1..];
      if |a| > 1 {
        Cancel(",", PrintItems(a[1..]) + ("]" + r), ",", PrintItems(b[1..]) + ("]" + u));
        ItemsPrefixFree(a[1..], b[1..], r, u);
      } else {
        Cancel("]", r, "]", u);
      }
    }
  }

  lemma {:induction false} FieldsPrefixFree(v: Json, w: Json, ks: seq<string>, ls: seq<string>, r: string, u: string)
    requires v.JObj? && w.JObj?
    requires forall k :: k in ks ==> k in v.fields
    requires forall k :: k in ls ==> k in w.fields
    requires PrintFields(v, ks) + ("}" + r) == PrintFields(w, ls) + ("}" + u)
    ensures ks == ls && r == u && forall k :: k in ks ==> v.fields[k] == w.fields[k]
    decreases v, |ks|
  {
    if ks == [] || ls == [] {
      if ks != [] { FieldsUnfold(v, ks, r); }
      if ls != [] { FieldsUnfold(w, ls, u); }
      assert (PrintFields(v, []) + ("}" + r))[0] == '}' && (PrintFields(w, []) + ("}" + u))[0] == '}';
      assert ks == [] && ls == [];
      assert PrintFields(v, ks) + ("}" + r) == "}" + r && PrintFields(w, ls) + ("}" + u) == "}" + u;
      Cancel("}", r, "}", u);
    } else {
      FieldsUnfold(v, ks, r);
      FieldsUnfold(w, ls, u);
      var a, b := v.fields[ks[0]], w.fields[ls[0]];
      var va, wb := Print(a) + FieldsTail(v, ks, r), Print(b) + FieldsTail(w, ls, u);
      Cancel("\"", EscapeAll(ks[0]) + ("\"" + (":" + va)), "\"", EscapeAll(ls[0]) + ("\"" + (":" + wb)));
      StringPrefixFree(ks[0], ls[0], ":" + va, ":" + wb);
      Cancel(":", va, ":", wb);
      PrintPrefixFree(a, b, FieldsTail(v, ks, r), FieldsTail(w, ls, u));
      FieldsRest(v, w, ks, ls, r, u);
    }
  }

  lemma {:induction false} FieldsRest(v: Json, w: Json, ks: seq<string>, ls: seq<string>, r: string, u: string)
    requires v.JObj? && w.JObj? && ks != [] && ls != [] && ks[0] == ls[0]
    requires forall k :: k in ks ==> k in v.fields
    requires forall k :: k in ls ==> k in w.fields
    requires v.fields[ks[0]] == w.fields[ls[0]] && FieldsTail(v, ks, r) == FieldsTail(w, ls, u)
    ensures ks == ls && r == u && forall k :: k in ks ==> v.fields[k] == w.fields[k]
    decreases v, |ks|, 0
  {
    assert FieldsTail(v, ks, r)[0] == FieldsTail(w, ls, u)[0];
    assert ks == [ks[0]] + ks[1..] && ls == [ls[0]] + ls[1..];
    if |ks| > 1 {
      Cancel(",", PrintFields(v, ks[1..]) + ("}" + r), ",", PrintFields(w, ls[1..]) + ("}" + u));
      FieldsPrefixFree(v, w, ks[1..], ls[1..], r, u);
    } else {
      Cancel("}", r, "}", u);
    }
  }

  /** The canonical text identifies the value. */
  lemma PrintInjective(v: Json, w: Json)
    ensures Print(v) == Print(w) <==> v == w
  {
    if Print(v) == Print(w) {
      assert Print(v) + [] == Print(v) && Print(w) + [] == Print(w);
      PrintPrefixFree(v, w, [], []);
    }
  }

  // ---------------------------------------------------------------- quoting

  /** A reader that only tracks whether it is inside a string. It dies on a character that canonical JSON
      never shows in that place: a backslash or a bar outside strings, a bar right after a backslash. */
  datatype Mode = Outside | Inside | Escaped | Dead

  function Read(m: Mode, c: char): Mode {
    match m
    case Outside => if c == '\"' then Inside else if c == '\\' || c == '|' then Dead else Outside
    case Inside => if c == '\"' then Outside else if c == '\\' then Escaped else Inside
    case Escaped => if c == '|' then Dead else Inside
    case Dead => Dead
  }

  function ReadAll(m: Mode, s: string): Mode
    decreases s
  {
    if s == [] then m else ReadAll(Read(m, s[0]), s[1..])
  }

  lemma {:induction false} ReadConcat(m: Mode, s: string, t: string)
    ensures ReadAll(m, s + t) == ReadAll(ReadAll(m, s), t)
    decreases s
  {
    if s == [] {
      assert s + t == t;
    } else {
      assert (s + t)[1..] == s[1..] + t;
      ReadConcat(Read(m, s[0]), s[1..], t);
    }
  }

  lemma {:induction false} ReadDead(s: string)
    ensures ReadAll(Dead, s) == Dead
  {
    if s != [] { ReadDead(s[1..]); }
  }

  predicate Plain(s: string) {
    forall i :: 0 <= i < |s| ==> s[i] != '\"' && s[i] != '\\' && s[i] != '|'
  }

  lemma {:induction false} ReadPlain(m: Mode, s: string)
    requires m.Outside? || m.Inside?
    requires Plain(s)
    ensures ReadAll(m, s) == m
    decreases s
  {
    if s != [] { ReadPlain(m, s[1..]); }
  }

  lemma ReadTwo(s: string)
    requires |s| >= 2
    ensures ReadAll(Inside, s) == ReadAll(Read(Read(Inside, s[0]), s[1]), s[2..])
  {
    assert s[1..][1..] == s[2..];
  }

  lemma ReadUnit(n: nat)
    ensures ReadAll(Inside, Unit(n)) == Inside
  {
    ReadTwo(Unit(n));
    ReadPlain(Inside, Unit(n)[2..]);
  }

  lemma ReadEscape(c: char)
    ensures ReadAll(Inside, Escape(c)) == Inside
  {
    if Printable(c) {
      assert ReadAll(Inside, [c]) == ReadAll(Read(Inside, c), []);
    } else if Short(c) {
      var m := Mnemonic(c);
      assert Escape(c)[1..] == [m];
      assert ReadAll(Inside, Escape(c)) == ReadAll(Escaped, [m]) == ReadAll(Inside, []);
    } else if c < '\U{10000}' {
      ReadUnit(c as int);
    } else {
      ReadUnit(HighUnit(c));
      ReadUnit(LowUnit(c));
      ReadConcat(Inside, Unit(HighUnit(c)), Unit(LowUnit(c)));
    }
  }

  lemma {:induction false} ReadEscapeAll(s: string)
    ensures ReadAll(Inside, EscapeAll(s)) == Inside
  {
    if s != [] {
      ReadEscape(s[0]);
      ReadConcat(Inside, Escape(s[0]), EscapeAll(s[1..]));
      ReadEscapeAll(s[1..]);
    }
  }

  lemma ReadPrintStr(s: string)
    ensures ReadAll(Outside, PrintStr(s)) == Outside
  {
    ReadEscapeAll(s);
    ReadConcat(Inside, EscapeAll(s), "\"");
    assert ReadAll(Inside, "\"") == Outside;
    assert PrintStr(s)[1..] == EscapeAll(s) + "\"";
  }

  /** Canonical JSON closes every string it opens and shows no bar outside strings. */
  lemma {:induction false} ReadPrint(v: Json)
    ensures ReadAll(Outside, Print(v)) == Outside
    decreases v
  {
    match v
    case JNull => ReadPlain(Outside, "null");
    case JBool(b) => ReadPlain(Outside, Print(v));
    case JStr(s) => ReadPrintStr(s);
    case JArr(items) =>
      ReadItems(items);
      ReadConcat(Outside, "[" + PrintItems(items), "]");
      ReadConcat(Outside, "[", PrintItems(items));
      ReadPlain(Outside, "["); ReadPlain(Outside, "]");
    case JObj(fields) =>
      var ks := Sorted(fields.Keys);
      ReadFields(v, ks);
      ReadConcat(Outside, "{" + PrintFields(v, ks), "}");
      ReadConcat(Outside, "{", PrintFields(v, ks));
      ReadPlain(Outside, "{"); ReadPlain(Outside, "}");
    case _ =>
      var p := Print(v);
      forall i | 0 <= i < |p| ensures p[i] != '\"' && p[i] != '\\' && p[i] != '|' { NumberToken(v, p[i]); }
      ReadPlain(Outside, Print(v));
  }

  lemma {:induction false} ReadItems(items: seq<Json>)
    ensures ReadAll(Outside, PrintItems(items)) == Outside
    decreases items
  {
    if items != [] {
      ReadPrint(items[0]);
      if |items| > 1 {
        ReadItems(items[1..]);
        ReadConcat(Outside, Print(items[0]) + ",", PrintItems(items[1..]));
        ReadConcat(Outside, Print(items[0]), ",");
        ReadPlain(Outside, ",");
      }
    }
  }

  lemma {:induction false} ReadFields(v: Json, keys: seq<string>)
    requires v.JObj? && forall k :: k in keys ==> k in v.fields
    ensures ReadAll(Outside, PrintFields(v, keys)) == Outside
    decreases v, |keys|
  {
    if keys != [] {
      var k, p := PrintStr(keys[0]), Print(v.fields[keys[0]]);
      ReadPrintStr(keys[0]);
      ReadPrint(v.fields[keys[0]]);
      ReadConcat(Outside, k + ":", p);
      ReadConcat(Outside, k, ":");
      ReadPlain(Outside, ":");
      if |keys| > 1 {
        ReadFields(v, keys[1..]);
        ReadConcat(Outside, k + ":" + p + ",", PrintFields(v, keys[1..]));
        ReadConcat(Outside, k + ":" + p, ",");
        ReadPlain(Outside, ",");
      }
    }
  }

  /** Two readers that disagree on whether they are inside a string go on disagreeing until one of them dies. */
  lemma {:induction false} ReadersStayOpposed(m: Mode, n: Mode, s: string)
    requires (m.Outside? && n.Inside?) || (m.Inside? && n.Outside?)
    ensures !(ReadAll(m, s) == Outside && ReadAll(n, s) == Outside)
    decreases s
  {
    if s != [] {
      if Read(m, s[0]).Dead? || Read(n, s[0]).Dead? {
        ReadDead(s[1..]);
      } else {
        ReadersStayOpposed(Read(m, s[0]), Read(n, s[0]), s[1..]);
      }
    }
  }

  /** A canonical document never ends with a bar followed by another canonical document. */
  lemma NoDocumentAfterBar(v: Json, w: Json, front: string)
    ensures Print(v) != front + "|" + Print(w)
  {
    if Print(v) == front + "|" + Print(w) {
      ReadPrint(v);
      ReadPrint(w);
      ReadConcat(Outside, front + "|", Print(w));
      ReadConcat(Outside, front, "|");
      var m := ReadAll(Outside, front);
      assert ReadAll(m, "|") == Read(m, '|');
      if m.Inside? {
        ReadersStayOpposed(Outside, Inside, Print(w));
      } else {
        ReadDead(Print(w));
      }
    }
  }
}

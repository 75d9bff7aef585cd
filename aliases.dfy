/**
 * The parameter alias table of the tracker: every human-friendly parameter
 * name, and every wire code itself, maps to the pair (typecast, wire code).
 * Resolution of a name either strips the raw-override marker `&`, applies the
 * registered typecast, or fails with KeyError.
 */
module Aliases {
  import opened Python

  /** The typecast callables the declarations hand to the alias table. */
  datatype Coercer = IntCast | FloatCast | StrCast | SafeUnicode

  /** One value of the alias table: the typecast and the wire code. */
  datatype Entry = Entry(typecast: Coercer, base: string)

  type AliasTable = map<string, Entry>

  /** typecast(value). str and safe_unicode coincide here (see Builtins). */
  function Coerce(py: Builtins, c: Coercer, v: Value): (r: Result<Value>)
    ensures r.Ok? && c == IntCast ==> r.value.Int?
    ensures r.Ok? && c == FloatCast ==> r.value.Float?
    ensures c == IntCast ==> (r.Ok? <==> py.toInt(v).Ok?)
    ensures c == IntCast && r.Ok? ==> r.value == Int(py.toInt(v).value)
    ensures c == IntCast && r.Err? ==> r.error == py.toInt(v).error
    ensures c == FloatCast ==> (r.Ok? <==> py.toFloat(v).Ok?)
    ensures c == FloatCast && r.Ok? ==> r.value == Float(py.toFloat(v).value)
    ensures c == FloatCast && r.Err? ==> r.error == py.toFloat(v).error
    ensures c == StrCast || c == SafeUnicode ==> r == Ok(Str(py.str(v)))
  {
    match c
    case IntCast => (match py.toInt(v) case Ok(n) => Ok(Int(n)) case Err(e) => Err(e))
    case FloatCast => (match py.toFloat(v) case Ok(x) => Ok(Float(x)) case Err(e) => Err(e))
    case StrCast => Ok(Str(py.str(v)))
    case SafeUnicode => Ok(Str(py.str(v)))
  }

  /** The table after alias(typemap, base, *names). */
  function Registered(t: AliasTable, typemap: Coercer, base: string, names: seq<string>): AliasTable
  {
    t[base := Entry(typemap, base)] + map n | n in names :: Entry(typemap, base)
  }

  /** After alias(...), the base code and every listed name map to (typemap, base); no other key changes. */
  lemma RegisteredAt(t: AliasTable, typemap: Coercer, base: string, names: seq<string>, k: string)
    ensures k == base || k in names ==>
      k in Registered(t, typemap, base, names) && Registered(t, typemap, base, names)[k] == Entry(typemap, base)
    ensures k != base && k !in names ==>
      (k in Registered(t, typemap, base, names) <==> k in t) &&
      (k in t ==> Registered(t, typemap, base, names)[k] == t[k])
  {
  }

  lemma RegisteredSnoc(t: AliasTable, typemap: Coercer, base: string, names: seq<string>, i: nat)
    requires i < |names|
    ensures Registered(t, typemap, base, names[..i + 1])
         == Registered(t, typemap, base, names[..i])[names[i] := Entry(typemap, base)]
  {
    assert names[..i + 1] == names[..i] + [names[i]];
    var a := Registered(t, typemap, base, names[..i + 1]);
    var b := Registered(t, typemap, base, names[..i])[names[i] := Entry(typemap, base)];
    forall k ensures (k in a <==> k in b) && (k in a ==> a[k] == b[k]) {
      RegisteredAt(t, typemap, base, names[..i + 1], k);
      RegisteredAt(t, typemap, base, names[..i], k);
    }
  }

  /** The alias table shared by all trackers (Tracker.parameter_alias). */
  class AliasRegistry {
    var table: AliasTable

    constructor()
      ensures table == map[]
    {
      table := map[];
    }

    /** Tracker.alias: declare alternate names for a wire code; a later declaration overwrites. */
    method Alias(typemap: Coercer, base: string, names: seq<string>)
      modifies this
      ensures table == Registered(old(table), typemap, base, names)
    {
      table := table[base := Entry(typemap, base)];
      for i := 0 to |names|
        invariant table == Registered(old(table), typemap, base, names[..i])
      {
        RegisteredSnoc(old(table), typemap, base, names, i);
        table := table[names[i] := Entry(typemap, base)];
      }
      assert names[..|names|] == names;
    }
  }

  // ---------------------------------------------------------------------------
  // Decimal indices, as f"{i}" writes them.
  // ---------------------------------------------------------------------------

  predicate IsDigit(c: char) {
    '0' <= c <= '9'
  }

  predicate AllDigits(s: string) {
    forall i :: 0 <= i < |s| ==> IsDigit(s[i])
  }

  function DigitChar(d: nat): (c: char)
    requires d < 10
    ensures IsDigit(c) && c as int - '0' as int == d
  {
    ('0' as int + d) as char
  }

  /** str(n) for a natural number n. */
  function Dec(n: nat): (s: string)
    ensures |s| >= 1 && AllDigits(s)
    ensures s[0] == '0' ==> n == 0 && |s| == 1
  {
    if n < 10 then [DigitChar(n)] else Dec(n / 10) + [DigitChar(n % 10)]
  }

  /** The number a string of digits denotes. */
  function DigitsValue(s: string): nat
    requires AllDigits(s)
  {
    if s == [] then 0 else DigitsValue(s[..|s| - 1]) * 10 + (s[|s| - 1] as int - '0' as int)
  }

  /** The length of the longest run of digits that s starts with. */
  function DigitRun(s: string): (k: nat)
    ensures k <= |s| && AllDigits(s[..k])
    ensures k < |s| ==> !IsDigit(s[k])
  {
    if s == [] || !IsDigit(s[0]) then 0
    else
      var k := 1 + DigitRun(s[1..]);
      assert s[..k] == [s[0]] + s[1..][..k - 1];
      k
  }

  /** Splits "<i><rest>" into i and rest, when it starts with i written as str(i) writes it. */
  function LeadingIndex(s: string): Option<(nat, string)>
  {
    var k := DigitRun(s);
    if k == 0 || (k > 1 && s[0] == '0') then None else Some((DigitsValue(s[..k]), s[k..]))
  }

  lemma {:induction false} DigitsValueOfDec(n: nat)
    ensures DigitsValue(Dec(n)) == n
  {
    if n >= 10 {
      DigitsValueOfDec(n / 10);
      var s := Dec(n);
      assert s[..|s| - 1] == Dec(n / 10);
    }
  }

  lemma {:induction false} DigitRunOfDigits(s: string, rest: string)
    requires AllDigits(s)
    requires rest == [] || !IsDigit(rest[0])
    ensures DigitRun(s + rest) == |s|
  {
    if s != [] {
      assert (s + rest)[1..] == s[1..] + rest;
      DigitRunOfDigits(s[1..], rest);
    }
  }

  /** Reading back str(i) from the front of a name yields i and the remainder. */
  lemma LeadingIndexOfDec(n: nat, rest: string)
    requires rest == [] || !IsDigit(rest[0])
    ensures LeadingIndex(Dec(n) + rest) == Some((n, rest))
  {
    var s := Dec(n) + rest;
    DigitRunOfDigits(Dec(n), rest);
    assert s[..|Dec(n)|] == Dec(n);
    assert s[|Dec(n)|..] == rest;
    DigitsValueOfDec(n);
  }

  /** A digit string other than "0" that starts with a non-zero digit denotes a positive number. */
  lemma {:induction false} DigitsPositive(s: string)
    requires s != [] && AllDigits(s) && s[0] != '0'
    ensures DigitsValue(s) >= 1
    decreases |s|
  {
    if |s| > 1 {
      var init := s[..|s| - 1];
      assert init[0] == s[0] && AllDigits(init);
      DigitsPositive(init);
    }
  }

  /** The converse of DigitsValueOfDec: a digit string without a leading zero is str of its value. */
  lemma {:induction false} DecOfDigits(s: string)
    requires s != [] && AllDigits(s) && (|s| > 1 ==> s[0] != '0')
    ensures Dec(DigitsValue(s)) == s
    decreases |s|
  {
    var n := |s| - 1;
    var d := s[n] as int - '0' as int;
    assert DigitChar(d) == s[n];
    if n == 0 {
      assert s[..0] == [];
    } else {
      var init := s[..n];
      assert init[0] == s[0] && AllDigits(init);
      DecOfDigits(init);
      DigitsPositive(init);
      var v := DigitsValue(s);
      assert v == DigitsValue(init) * 10 + d;
      assert v / 10 == DigitsValue(init) && v % 10 == d;
      assert s == init + [s[n]];
    }
  }

  /** The converse of LeadingIndexOfDec: what LeadingIndex splits off is str(i), followed by a non-digit. */
  lemma LeadingIndexShape(s: string, i: nat, rest: string)
    requires LeadingIndex(s) == Some((i, rest))
    ensures s == Dec(i) + rest && (rest == [] || !IsDigit(rest[0]))
  {
    var k := DigitRun(s);
    DecOfDigits(s[..k]);
    assert s == s[..k] + s[k..];
  }

  // ---------------------------------------------------------------------------
  // The generated families: custom definitions and Enhanced Ecommerce keys.
  // ---------------------------------------------------------------------------

  const MaxCustomDefinitions: nat := 200
  const MaxEcLists: nat := 11       // exclusive bound of the 1-based list index
  const MaxEcProducts: nat := 11    // exclusive bound of the 1-based product index
  const MaxEcPromotions: nat := 11  // exclusive bound of the 1-based promotion index

  /** The Enhanced Ecommerce keys without an index. */
  const EcommerceSingles: map<string, Coercer> :=
    map["pa" := StrCast, "tcc" := StrCast, "pal" := StrCast, "cos" := IntCast, "col" := StrCast, "promoa" := StrCast]

  /** The per-product fields pr<p><field>. */
  const ProductFields: map<string, Coercer> :=
    map["id" := StrCast, "nm" := StrCast, "br" := StrCast, "ca" := StrCast, "va" := StrCast,
        "pr" := StrCast, "qt" := IntCast, "cc" := StrCast, "ps" := IntCast]

  /** The per-impression fields il<l>pi<p><field>. */
  const ImpressionFields: map<string, Coercer> :=
    map["id" := StrCast, "nm" := StrCast, "br" := StrCast, "ca" := StrCast, "va" := StrCast,
        "ps" := IntCast, "pr" := IntCast]

  /** The per-promotion fields promo<k><field>. */
  const PromotionFields: set<string> := {"id", "nm", "cr", "ps"}

  /** name == prefix + str(i) + rest with lo <= i < hi: the pair (i, rest). */
  function IndexAfter(name: string, prefix: string, lo: nat, hi: nat): (r: Option<(nat, string)>)
  {
    if |prefix| <= |name| && name[..|prefix|] == prefix then
      match LeadingIndex(name[|prefix|..])
      case Some(p) => if lo <= p.0 < hi then Some(p) else None
      case None => None
    else None
  }

  /** The index i of name == prefix + str(i) with lo <= i < hi. */
  function ExactIndex(name: string, prefix: string, lo: nat, hi: nat): Option<nat>
  {
    match IndexAfter(name, prefix, lo, hi)
    case Some(p) => if p.1 == "" then Some(p.0) else None
    case None => None
  }

  lemma ExactIndexOfDec(prefix: string, i: nat, lo: nat, hi: nat)
    requires lo <= i < hi
    ensures ExactIndex(prefix + Dec(i), prefix, lo, hi) == Some(i)
  {
    LeadingIndexOfDec(i, "");
    assert Dec(i) + "" == Dec(i);
    assert (prefix + Dec(i))[..|prefix|] == prefix;
    assert (prefix + Dec(i))[|prefix|..] == Dec(i);
  }

  lemma IndexAfterOfDec(prefix: string, i: nat, rest: string, lo: nat, hi: nat)
    requires lo <= i < hi
    requires rest == [] || !IsDigit(rest[0])
    ensures IndexAfter(prefix + Dec(i) + rest, prefix, lo, hi) == Some((i, rest))
  {
    LeadingIndexOfDec(i, rest);
    var name := prefix + Dec(i) + rest;
    assert name[..|prefix|] == prefix;
    assert name[|prefix|..] == Dec(i) + rest;
  }

  lemma IndexAfterOutOfRange(prefix: string, i: nat, rest: string, lo: nat, hi: nat)
    requires !(lo <= i < hi)
    requires rest == [] || !IsDigit(rest[0])
    ensures IndexAfter(prefix + Dec(i) + rest, prefix, lo, hi).None?
    ensures ExactIndex(prefix + Dec(i) + rest, prefix, lo, hi).None?
  {
    LeadingIndexOfDec(i, rest);
    var name := prefix + Dec(i) + rest;
    assert name[..|prefix|] == prefix;
    assert name[|prefix|..] == Dec(i) + rest;
  }

  lemma ExactIndexOutOfRange(prefix: string, i: nat, lo: nat, hi: nat)
    requires !(lo <= i < hi)
    ensures ExactIndex(prefix + Dec(i), prefix, lo, hi).None?
  {
    LeadingIndexOfDec(i, "");
    assert Dec(i) + "" == Dec(i);
    assert (prefix + Dec(i))[..|prefix|] == prefix;
    assert (prefix + Dec(i))[|prefix|..] == Dec(i);
  }

  /** The converse of IndexAfterOfDec: a recognised name is prefix + str(i) + rest with i in range. */
  lemma IndexAfterShape(name: string, prefix: string, lo: nat, hi: nat, i: nat, rest: string)
    requires IndexAfter(name, prefix, lo, hi) == Some((i, rest))
    ensures name == prefix + Dec(i) + rest && lo <= i < hi && (rest == [] || !IsDigit(rest[0]))
  {
    LeadingIndexShape(name[|prefix|..], i, rest);
    assert name == name[..|prefix|] + name[|prefix|..];
  }

  /** The converse of ExactIndexOfDec: a recognised name is prefix + str(i) with i in range. */
  lemma ExactIndexShape(name: string, prefix: string, lo: nat, hi: nat, i: nat)
    requires ExactIndex(name, prefix, lo, hi) == Some(i)
    ensures name == prefix + Dec(i) && lo <= i < hi
  {
    var p := IndexAfter(name, prefix, lo, hi).value;
    IndexAfterShape(name, prefix, lo, hi, p.0, p.1);
    assert prefix + Dec(i) + "" == prefix + Dec(i);
  }

  /** cd<c> or cm<c> with c < 200, inside a product or impression key. */
  function CustomField(s: string): Option<Coercer>
  {
    if ExactIndex(s, "cd", 0, MaxCustomDefinitions).Some? then Some(StrCast)
    else if ExactIndex(s, "cm", 0, MaxCustomDefinitions).Some? then Some(IntCast)
    else None
  }

  function ProductField(s: string): Option<Coercer>
  {
    if s in ProductFields then Some(ProductFields[s]) else CustomField(s)
  }

  function ImpressionField(s: string): Option<Coercer>
  {
    if s in ImpressionFields then Some(ImpressionFields[s]) else CustomField(s)
  }

  /** The custom dimensions and metrics: dimension<i>/cd<i> and metric<i>/cm<i>, i < 200. */
  function CustomDefinition(name: string): Option<Entry>
  {
    var dimension := ExactIndex(name, "dimension", 0, MaxCustomDefinitions);
    var metric := ExactIndex(name, "metric", 0, MaxCustomDefinitions);
    if dimension.Some? then Some(Entry(SafeUnicode, "cd" + Dec(dimension.value)))
    else if metric.Some? then Some(Entry(IntCast, "cm" + Dec(metric.value)))
    else if ExactIndex(name, "cd", 0, MaxCustomDefinitions).Some? then Some(Entry(SafeUnicode, name))
    else if ExactIndex(name, "cm", 0, MaxCustomDefinitions).Some? then Some(Entry(IntCast, name))
    else None
  }

  /** The keys under an impression list il<l>: its name, or the fields of impression pi<p>. */
  function ListKey(rest: string): Option<Coercer>
  {
    if rest == "nm" then Some(StrCast)
    else match IndexAfter(rest, "pi", 1, MaxEcProducts)
      case Some(impression) => ImpressionField(impression.1)
      case None => None
  }

  /** The Enhanced Ecommerce keys; each is its own wire code. */
  function EcommerceKey(name: string): Option<Coercer>
  {
    var promotion := IndexAfter(name, "promo", 1, MaxEcPromotions);
    var product := IndexAfter(name, "pr", 1, MaxEcProducts);
    var list := IndexAfter(name, "il", 1, MaxEcLists);
    if name in EcommerceSingles then Some(EcommerceSingles[name])
    else if promotion.Some? && promotion.value.1 in PromotionFields then Some(StrCast)
    else if product.Some? then ProductField(product.value.1)
    else if list.Some? then ListKey(list.value.1)
    else None
  }

  /** The entry the generated families register for name, if any. */
  function Family(name: string): Option<Entry>
  {
    if CustomDefinition(name).Some? then CustomDefinition(name)
    else if EcommerceKey(name).Some? then Some(Entry(EcommerceKey(name).value, name))
    else None
  }

  /** Every family entry's wire code is itself registered, to the same entry. */
  lemma FamilyBaseRegistersItself(name: string)
    requires Family(name).Some?
    ensures Family(Family(name).value.base) == Family(name)
  {
    var dimension := ExactIndex(name, "dimension", 0, MaxCustomDefinitions);
    var metric := ExactIndex(name, "metric", 0, MaxCustomDefinitions);
    if dimension.Some? {
      CustomDimensionsRegistered(dimension.value);
    } else if metric.Some? {
      CustomMetricsRegistered(metric.value);
    }
  }

  /** A name that differs from prefix at position j does not start with prefix. */
  lemma NotPrefixed(name: string, prefix: string, j: nat, lo: nat, hi: nat)
    requires j < |prefix| && j < |name| && name[j] != prefix[j]
    ensures IndexAfter(name, prefix, lo, hi).None? && ExactIndex(name, prefix, lo, hi).None?
  {
    if |prefix| <= |name| {
      assert name[..|prefix|][j] != prefix[j];
    }
  }

  /** dimension<i> is registered for every i < 200, as the safe_unicode parameter cd<i>. */
  lemma DimensionRegistered(i: nat)
    requires i < MaxCustomDefinitions
    ensures Family("dimension" + Dec(i)) == Some(Entry(SafeUnicode, "cd" + Dec(i)))
  {
    ExactIndexOfDec("dimension", i, 0, MaxCustomDefinitions);
  }

  /** cd<i> is registered for every i < 200, as itself. */
  lemma CdRegistered(i: nat)
    requires i < MaxCustomDefinitions
    ensures Family("cd" + Dec(i)) == Some(Entry(SafeUnicode, "cd" + Dec(i)))
  {
    var name := "cd" + Dec(i);
    ExactIndexOfDec("cd", i, 0, MaxCustomDefinitions);
    NotPrefixed(name, "dimension", 1, 0, MaxCustomDefinitions);
    NotPrefixed(name, "metric", 0, 0, MaxCustomDefinitions);
  }

  /** metric<i> is registered for every i < 200, as the int parameter cm<i>. */
  lemma MetricRegistered(i: nat)
    requires i < MaxCustomDefinitions
    ensures Family("metric" + Dec(i)) == Some(Entry(IntCast, "cm" + Dec(i)))
  {
    ExactIndexOfDec("metric", i, 0, MaxCustomDefinitions);
    NotPrefixed("metric" + Dec(i), "dimension", 0, 0, MaxCustomDefinitions);
  }

  /** cm<i> is registered for every i < 200, as itself. */
  lemma CmRegistered(i: nat)
    requires i < MaxCustomDefinitions
    ensures Family("cm" + Dec(i)) == Some(Entry(IntCast, "cm" + Dec(i)))
  {
    var name := "cm" + Dec(i);
    ExactIndexOfDec("cm", i, 0, MaxCustomDefinitions);
    NotPrefixed(name, "dimension", 1, 0, MaxCustomDefinitions);
    NotPrefixed(name, "metric", 0, 0, MaxCustomDefinitions);
    NotPrefixed(name, "cd", 1, 0, MaxCustomDefinitions);
  }

  /** dimension<i> and cd<i> are registered for every i < 200, as safe_unicode parameters cd<i>. */
  lemma CustomDimensionsRegistered(i: nat)
    requires i < MaxCustomDefinitions
    ensures Family("dimension" + Dec(i)) == Some(Entry(SafeUnicode, "cd" + Dec(i)))
    ensures Family("cd" + Dec(i)) == Some(Entry(SafeUnicode, "cd" + Dec(i)))
  {
    DimensionRegistered(i);
    CdRegistered(i);
  }

  /** metric<i> and cm<i> are registered for every i < 200, as int parameters cm<i>. */
  lemma CustomMetricsRegistered(i: nat)
    requires i < MaxCustomDefinitions
    ensures Family("metric" + Dec(i)) == Some(Entry(IntCast, "cm" + Dec(i)))
    ensures Family("cm" + Dec(i)) == Some(Entry(IntCast, "cm" + Dec(i)))
  {
    MetricRegistered(i);
    CmRegistered(i);
  }

  /** A name containing a digit is none of the unindexed Enhanced Ecommerce keys. */
  lemma NotSingle(name: string, j: nat)
    requires j < |name| && IsDigit(name[j])
    ensures name !in EcommerceSingles
  {
    forall k | k in EcommerceSingles ensures name != k {
      if j < |k| {
        assert !IsDigit(k[j]);
      }
    }
  }

  /** A name starting with neither "d", "m" nor "c" is no custom definition. */
  lemma NotCustomDefinition(name: string)
    requires |name| > 0 && name[0] != 'd' && name[0] != 'm' && name[0] != 'c'
    ensures CustomDefinition(name).None?
  {
    NotPrefixed(name, "dimension", 0, 0, MaxCustomDefinitions);
    NotPrefixed(name, "metric", 0, 0, MaxCustomDefinitions);
    NotPrefixed(name, "cd", 0, 0, MaxCustomDefinitions);
    NotPrefixed(name, "cm", 0, 0, MaxCustomDefinitions);
  }

  /** pa, tcc, pal, cos, col and promoa are registered as their own wire codes. */
  lemma EcommerceSinglesRegistered(name: string)
    requires name in EcommerceSingles
    ensures Family(name) == Some(Entry(EcommerceSingles[name], name))
  {
    if name[0] == 'c' {
      assert name == "cos" || name == "col";
      NotPrefixed(name, "dimension", 0, 0, MaxCustomDefinitions);
      NotPrefixed(name, "metric", 0, 0, MaxCustomDefinitions);
      NotPrefixed(name, "cd", 1, 0, MaxCustomDefinitions);
      NotPrefixed(name, "cm", 1, 0, MaxCustomDefinitions);
    } else {
      NotCustomDefinition(name);
    }
  }

  /** A name under product pr<p> (1 <= p <= 10) is looked up among the product's fields. */
  lemma ProductFamily(p: nat, rest: string)
    requires 1 <= p < MaxEcProducts && rest != [] && !IsDigit(rest[0])
    ensures Family("pr" + Dec(p) + rest) ==
      match ProductField(rest) case Some(c) => Some(Entry(c, "pr" + Dec(p) + rest)) case None => None
  {
    var name := "pr" + Dec(p) + rest;
    assert name[0] == 'p' && IsDigit(name[2]);
    NotSingle(name, 2);
    NotCustomDefinition(name);
    NotPrefixed(name, "promo", 2, 1, MaxEcPromotions);
    IndexAfterOfDec("pr", p, rest, 1, MaxEcProducts);
  }

  /** pr<p><field> is registered for every product 1 <= p <= 10 and field, with the field's typecast. */
  lemma ProductFieldRegistered(p: nat, field: string)
    requires 1 <= p < MaxEcProducts && field in ProductFields
    ensures Family("pr" + Dec(p) + field) == Some(Entry(ProductFields[field], "pr" + Dec(p) + field))
  {
    ProductFamily(p, field);
  }

  /** cd<c> inside a product or impression key is a str field, cm<c> an int field. */
  lemma CustomFieldOfDec(c: nat, metric: bool)
    requires c < MaxCustomDefinitions
    ensures CustomField((if metric then "cm" else "cd") + Dec(c)) == Some(if metric then IntCast else StrCast)
  {
    var kind := if metric then "cm" else "cd";
    ExactIndexOfDec(kind, c, 0, MaxCustomDefinitions);
    if metric {
      NotPrefixed(kind + Dec(c), "cd", 1, 0, MaxCustomDefinitions);
    }
  }

  /** pr<p>cd<c> (str) and pr<p>cm<c> (int) are registered for every product and c < 200. */
  lemma ProductCustomRegistered(p: nat, c: nat, metric: bool)
    requires 1 <= p < MaxEcProducts && c < MaxCustomDefinitions
    ensures var name := "pr" + Dec(p) + (if metric then "cm" else "cd") + Dec(c);
      Family(name) == Some(Entry(if metric then IntCast else StrCast, name))
  {
    var kind := if metric then "cm" else "cd";
    var field := kind + Dec(c);
    assert ProductField(field) == Some(if metric then IntCast else StrCast) by {
      assert field !in ProductFields by { assert |field| > 2; }
      CustomFieldOfDec(c, metric);
    }
    assert "pr" + Dec(p) + kind + Dec(c) == "pr" + Dec(p) + field by {
      AppendAssoc("pr" + Dec(p), kind, Dec(c));
    }
    assert field[0] == 'c';
    ProductFamily(p, field);
  }

  /** The keys under list il<l> that belong to impression pi<p>. */
  lemma ImpressionKey(p: nat, field: string)
    requires 1 <= p < MaxEcProducts && field != [] && !IsDigit(field[0])
    ensures ListKey("pi" + Dec(p) + field) == ImpressionField(field)
  {
    IndexAfterOfDec("pi", p, field, 1, MaxEcProducts);
    assert ("pi" + Dec(p) + field)[0] == 'p';
  }

  /** A name under list il<l> (1 <= l <= 10) is looked up among that list's keys. */
  lemma ListFamily(l: nat, rest: string)
    requires 1 <= l < MaxEcLists && rest != [] && !IsDigit(rest[0])
    ensures Family("il" + Dec(l) + rest) ==
      match ListKey(rest) case Some(c) => Some(Entry(c, "il" + Dec(l) + rest)) case None => None
  {
    var name := "il" + Dec(l) + rest;
    assert name[0] == 'i' && IsDigit(name[2]);
    NotSingle(name, 2);
    NotCustomDefinition(name);
    NotPrefixed(name, "promo", 0, 1, MaxEcPromotions);
    NotPrefixed(name, "pr", 0, 1, MaxEcProducts);
    IndexAfterOfDec("il", l, rest, 1, MaxEcLists);
  }

  /** il<l>pi<p><field> is registered for every list, product and impression field. */
  lemma ImpressionFieldRegistered(l: nat, p: nat, field: string)
    requires 1 <= l < MaxEcLists && 1 <= p < MaxEcProducts && field in ImpressionFields
    ensures var name := "il" + Dec(l) + "pi" + Dec(p) + field;
      Family(name) == Some(Entry(ImpressionFields[field], name))
  {
    var list, impression := "il" + Dec(l), "pi" + Dec(p);
    var rest := impression + field;
    assert field != [] && !IsDigit(field[0]);
    assert ListKey(rest) == Some(ImpressionFields[field]) by {
      ImpressionKey(p, field);
    }
    assert list + "pi" + Dec(p) + field == list + rest by {
      AppendAssoc(list, "pi", Dec(p));
      AppendAssoc(list, impression, field);
    }
    assert rest[0] == 'p';
    ListFamily(l, rest);
  }

  lemma ImpressionCustomKey(p: nat, c: nat, metric: bool)
    requires 1 <= p < MaxEcProducts && c < MaxCustomDefinitions
    ensures ListKey("pi" + Dec(p) + ((if metric then "cm" else "cd") + Dec(c))) == Some(if metric then IntCast else StrCast)
  {
    var field := (if metric then "cm" else "cd") + Dec(c);
    assert ImpressionField(field) == Some(if metric then IntCast else StrCast) by {
      assert field !in ImpressionFields by { assert |field| > 2; }
      CustomFieldOfDec(c, metric);
    }
    assert field[0] == 'c';
    ImpressionKey(p, field);
  }

  /** il<l>pi<p>cd<c> (str) and il<l>pi<p>cm<c> (int) are registered for every c < 200. */
  lemma ImpressionCustomRegistered(l: nat, p: nat, c: nat, metric: bool)
    requires 1 <= l < MaxEcLists && 1 <= p < MaxEcProducts && c < MaxCustomDefinitions
    ensures var name := "il" + Dec(l) + ("pi" + Dec(p) + ((if metric then "cm" else "cd") + Dec(c)));
      Family(name) == Some(Entry(if metric then IntCast else StrCast, name))
  {
    var rest := "pi" + Dec(p) + ((if metric then "cm" else "cd") + Dec(c));
    ImpressionCustomKey(p, c, metric);
    assert rest[0] == 'p';
    ListFamily(l, rest);
  }

  /** il<l>nm, the impression list name, is registered as a str parameter. */
  lemma ListNameRegistered(l: nat)
    requires 1 <= l < MaxEcLists
    ensures Family("il" + Dec(l) + "nm") == Some(Entry(StrCast, "il" + Dec(l) + "nm"))
  {
    var name := "il" + Dec(l) + "nm";
    NotSingle(name, 2);
    NotCustomDefinition(name);
    NotPrefixed(name, "promo", 0, 1, MaxEcPromotions);
    NotPrefixed(name, "pr", 0, 1, MaxEcProducts);
    IndexAfterOfDec("il", l, "nm", 1, MaxEcLists);
  }

  /** promo<k><field> is registered as a str parameter for every promotion and field. */
  lemma PromotionFieldRegistered(k: nat, field: string)
    requires 1 <= k < MaxEcPromotions && field in PromotionFields
    ensures Family("promo" + Dec(k) + field) == Some(Entry(StrCast, "promo" + Dec(k) + field))
  {
    var name := "promo" + Dec(k) + field;
    NotSingle(name, 5);
    NotCustomDefinition(name);
    IndexAfterOfDec("promo", k, field, 1, MaxEcPromotions);
  }

  /** A name starting with neither "p" nor "i" that contains a digit is no Enhanced Ecommerce key. */
  lemma NotEcommerceKey(name: string, j: nat)
    requires |name| > 0 && name[0] != 'p' && name[0] != 'i'
    requires j < |name| && IsDigit(name[j])
    ensures EcommerceKey(name).None?
  {
    NotSingle(name, j);
    NotPrefixed(name, "promo", 0, 1, MaxEcPromotions);
    NotPrefixed(name, "pr", 0, 1, MaxEcProducts);
    NotPrefixed(name, "il", 0, 1, MaxEcLists);
  }

  /** dimension<i> for i >= 200 is unknown. */
  lemma DimensionUnknown(i: nat)
    requires i >= MaxCustomDefinitions
    ensures Family("dimension" + Dec(i)) == None
  {
    var name := "dimension" + Dec(i);
    ExactIndexOutOfRange("dimension", i, 0, MaxCustomDefinitions);
    NotPrefixed(name, "metric", 0, 0, MaxCustomDefinitions);
    NotPrefixed(name, "cd", 1, 0, MaxCustomDefinitions);
    NotPrefixed(name, "cm", 0, 0, MaxCustomDefinitions);
    NotEcommerceKey(name, 9);
  }

  /** cd<i> and cm<i>, the short spellings of the custom definitions, are unknown for i >= 200. */
  lemma ShortCustomUnknown(prefix: string, i: nat)
    requires prefix == "cd" || prefix == "cm"
    requires i >= MaxCustomDefinitions
    ensures Family(prefix + Dec(i)) == None
  {
    var name := prefix + Dec(i);
    ExactIndexOutOfRange(prefix, i, 0, MaxCustomDefinitions);
    NotPrefixed(name, "dimension", 1, 0, MaxCustomDefinitions);
    NotPrefixed(name, "metric", 0, 0, MaxCustomDefinitions);
    NotPrefixed(name, if prefix == "cd" then "cm" else "cd", 1, 0, MaxCustomDefinitions);
    NotEcommerceKey(name, 2);
  }

  /** metric<i> for i >= 200 is unknown. */
  lemma MetricUnknown(i: nat)
    requires i >= MaxCustomDefinitions
    ensures Family("metric" + Dec(i)) == None
  {
    var name := "metric" + Dec(i);
    ExactIndexOutOfRange("metric", i, 0, MaxCustomDefinitions);
    NotPrefixed(name, "dimension", 0, 0, MaxCustomDefinitions);
    NotPrefixed(name, "cd", 0, 0, MaxCustomDefinitions);
    NotPrefixed(name, "cm", 0, 0, MaxCustomDefinitions);
    NotEcommerceKey(name, 6);
  }

  /** Custom dimensions stop at index 199: dimension<i> and cd<i> for i >= 200 are unknown. */
  lemma CustomDimensionBound(i: nat)
    requires i >= MaxCustomDefinitions
    ensures Family("dimension" + Dec(i)) == None && Family("cd" + Dec(i)) == None
  {
    DimensionUnknown(i);
    ShortCustomUnknown("cd", i);
  }

  /** Custom metrics stop at index 199: metric<i> and cm<i> for i >= 200 are unknown. */
  lemma CustomMetricBound(i: nat)
    requires i >= MaxCustomDefinitions
    ensures Family("metric" + Dec(i)) == None && Family("cm" + Dec(i)) == None
  {
    MetricUnknown(i);
    ShortCustomUnknown("cm", i);
  }

  /** Products are numbered 1 to 10: pr<p><field> for p == 0 or p > 10 is unknown. */
  lemma ProductIndexBound(p: nat, rest: string)
    requires p == 0 || p >= MaxEcProducts
    requires rest == [] || !IsDigit(rest[0])
    ensures Family("pr" + Dec(p) + rest) == None
  {
    var name := "pr" + Dec(p) + rest;
    IndexAfterOutOfRange("pr", p, rest, 1, MaxEcProducts);
    NotSingle(name, 2);
    NotCustomDefinition(name);
    NotPrefixed(name, "promo", 2, 1, MaxEcPromotions);
    NotPrefixed(name, "il", 0, 1, MaxEcLists);
  }

  /** Lists are numbered 1 to 10: il0... and il11... are unknown whatever follows. */
  lemma ListIndexBound(l: nat, rest: string)
    requires l == 0 || l >= MaxEcLists
    requires rest == [] || !IsDigit(rest[0])
    ensures Family("il" + Dec(l) + rest) == None
  {
    var name := "il" + Dec(l) + rest;
    IndexAfterOutOfRange("il", l, rest, 1, MaxEcLists);
    assert name[0] == 'i' && IsDigit(name[2]);
    NotSingle(name, 2);
    NotCustomDefinition(name);
    NotPrefixed(name, "promo", 0, 1, MaxEcPromotions);
    NotPrefixed(name, "pr", 0, 1, MaxEcProducts);
  }

  /** Products within a list are numbered 1 to 10 as well. */
  lemma ImpressionIndexBound(l: nat, p: nat, rest: string)
    requires 1 <= l < MaxEcLists && (p == 0 || p >= MaxEcProducts)
    requires rest == [] || !IsDigit(rest[0])
    ensures Family("il" + Dec(l) + ("pi" + Dec(p) + rest)) == None
  {
    var sub := "pi" + Dec(p) + rest;
    IndexAfterOutOfRange("pi", p, rest, 1, MaxEcProducts);
    assert sub[0] == 'p';
    ListFamily(l, sub);
  }

  /** A custom index with a leading zero is not an index: cd05 is not cd5. */
  lemma LeadingZeroUnknown(prefix: string, digits: string, rest: string)
    requires |digits| > 1 && AllDigits(digits) && digits[0] == '0'
    ensures IndexAfter(prefix + digits + rest, prefix, 0, MaxCustomDefinitions).None?
    ensures ExactIndex(prefix + digits + rest, prefix, 0, MaxCustomDefinitions).None?
  {
    var name := prefix + digits + rest;
    assert name[..|prefix|] == prefix;
    var tail := name[|prefix|..];
    assert tail[0] == '0' && IsDigit(tail[1]);
    assert DigitRun(tail) > 1;
  }

  /** Product 0 is unknown, even with a well-formed custom field after it. */
  lemma ProductZeroUnknown()
    ensures Family("pr0cd5") == None
  {
    assert "pr0cd5" == "pr" + Dec(0) + "cd5";
    ProductIndexBound(0, "cd5");
  }

  /** List 11 is unknown. */
  lemma ListElevenUnknown()
    ensures Family("il11nm") == None
  {
    assert Dec(11) == "11";
    assert "il11nm" == "il" + Dec(11) + "nm";
    ListIndexBound(11, "nm");
  }

  /** A custom field of an impression written with a leading zero is unknown. */
  lemma LeadingZeroField()
    ensures ImpressionField("cd05") == None
  {
    LeadingZeroUnknown("cd", "05", "");
    assert "cd05" == "cd" + "05" + "";
    NotPrefixed("cd05", "cm", 1, 0, MaxCustomDefinitions);
  }

  lemma ImpressionLeadingZeroUnknown()
    ensures Family("il1pi1cd05") == None
  {
    LeadingZeroField();
    ImpressionKey(1, "cd05");
    assert "il1pi1cd05" == "il" + Dec(1) + ("pi" + Dec(1) + "cd05");
    ListFamily(1, "pi" + Dec(1) + "cd05");
  }

  // ---------------------------------------------------------------------------
  // Only the generated names are family names.
  // ---------------------------------------------------------------------------

  /** dimension<i>, metric<i>, cd<i> or cm<i> with i < 200. */
  ghost predicate CustomDefinitionName(name: string) {
    exists i: nat :: i < MaxCustomDefinitions &&
      (name == "dimension" + Dec(i) || name == "metric" + Dec(i) || name == "cd" + Dec(i) || name == "cm" + Dec(i))
  }

  /** cd<c> or cm<c> with c < 200, the custom field of a product or an impression. */
  ghost predicate CustomSubKey(field: string) {
    exists c: nat :: c < MaxCustomDefinitions && (field == "cd" + Dec(c) || field == "cm" + Dec(c))
  }

  /** promo<k><field>, 1 <= k <= 10. */
  ghost predicate PromotionName(name: string) {
    exists k: nat, field: string :: 1 <= k < MaxEcPromotions && field in PromotionFields && name == "promo" + Dec(k) + field
  }

  /** pr<p><field>, 1 <= p <= 10. */
  ghost predicate ProductName(name: string) {
    exists p: nat, field: string :: 1 <= p < MaxEcProducts && (field in ProductFields || CustomSubKey(field)) &&
      name == "pr" + Dec(p) + field
  }

  /** il<l>nm, 1 <= l <= 10. */
  ghost predicate ListName(name: string) {
    exists l: nat :: 1 <= l < MaxEcLists && name == "il" + Dec(l) + "nm"
  }

  /** pi<p><field> under an impression list, 1 <= p <= 10. */
  ghost predicate ImpressionSubKey(rest: string) {
    exists p: nat, field: string :: 1 <= p < MaxEcProducts && (field in ImpressionFields || CustomSubKey(field)) &&
      rest == "pi" + Dec(p) + field
  }

  /** il<l>pi<p><field>, 1 <= l, p <= 10. */
  ghost predicate ImpressionName(name: string) {
    exists l: nat, rest: string :: 1 <= l < MaxEcLists && ImpressionSubKey(rest) && name == "il" + Dec(l) + rest
  }

  /** The names the generating loops of the tracker module register. */
  ghost predicate GeneratedName(name: string) {
    || CustomDefinitionName(name)
    || name in EcommerceSingles
    || PromotionName(name)
    || ProductName(name)
    || ListName(name)
    || ImpressionName(name)
  }

  lemma CustomDefinitionShape(name: string)
    requires CustomDefinition(name).Some?
    ensures CustomDefinitionName(name)
  {
    var dimension := ExactIndex(name, "dimension", 0, MaxCustomDefinitions);
    var metric := ExactIndex(name, "metric", 0, MaxCustomDefinitions);
    var cd := ExactIndex(name, "cd", 0, MaxCustomDefinitions);
    var cm := ExactIndex(name, "cm", 0, MaxCustomDefinitions);
    if dimension.Some? {
      ExactIndexShape(name, "dimension", 0, MaxCustomDefinitions, dimension.value);
    } else if metric.Some? {
      ExactIndexShape(name, "metric", 0, MaxCustomDefinitions, metric.value);
    } else if cd.Some? {
      ExactIndexShape(name, "cd", 0, MaxCustomDefinitions, cd.value);
    } else {
      ExactIndexShape(name, "cm", 0, MaxCustomDefinitions, cm.value);
    }
  }

  lemma CustomFieldShape(field: string)
    requires CustomField(field).Some?
    ensures CustomSubKey(field)
  {
    var cd := ExactIndex(field, "cd", 0, MaxCustomDefinitions);
    var cm := ExactIndex(field, "cm", 0, MaxCustomDefinitions);
    if cd.Some? {
      ExactIndexShape(field, "cd", 0, MaxCustomDefinitions, cd.value);
    } else {
      ExactIndexShape(field, "cm", 0, MaxCustomDefinitions, cm.value);
    }
  }

  lemma ListKeyShape(rest: string)
    requires ListKey(rest).Some? && rest != "nm"
    ensures ImpressionSubKey(rest)
  {
    var q := IndexAfter(rest, "pi", 1, MaxEcProducts).value;
    IndexAfterShape(rest, "pi", 1, MaxEcProducts, q.0, q.1);
    if q.1 !in ImpressionFields {
      CustomFieldShape(q.1);
    }
  }

  lemma PromotionShape(name: string, k: nat, field: string)
    requires IndexAfter(name, "promo", 1, MaxEcPromotions) == Some((k, field)) && field in PromotionFields
    ensures PromotionName(name)
  {
    IndexAfterShape(name, "promo", 1, MaxEcPromotions, k, field);
  }

  lemma ProductShape(name: string, p: nat, field: string)
    requires IndexAfter(name, "pr", 1, MaxEcProducts) == Some((p, field)) && ProductField(field).Some?
    ensures ProductName(name)
  {
    IndexAfterShape(name, "pr", 1, MaxEcProducts, p, field);
    if field !in ProductFields {
      CustomFieldShape(field);
    }
  }

  lemma ListShape(name: string, l: nat, rest: string)
    requires IndexAfter(name, "il", 1, MaxEcLists) == Some((l, rest)) && ListKey(rest).Some?
    ensures ListName(name) || ImpressionName(name)
  {
    IndexAfterShape(name, "il", 1, MaxEcLists, l, rest);
    if rest != "nm" {
      ListKeyShape(rest);
    }
  }

  lemma EcommerceKeyShape(name: string)
    requires EcommerceKey(name).Some?
    ensures name in EcommerceSingles || PromotionName(name) || ProductName(name) || ListName(name) || ImpressionName(name)
  {
    var promotion := IndexAfter(name, "promo", 1, MaxEcPromotions);
    var product := IndexAfter(name, "pr", 1, MaxEcProducts);
    var list := IndexAfter(name, "il", 1, MaxEcLists);
    if name in EcommerceSingles {
    } else if promotion.Some? && promotion.value.1 in PromotionFields {
      PromotionShape(name, promotion.value.0, promotion.value.1);
    } else if product.Some? {
      ProductShape(name, product.value.0, product.value.1);
    } else {
      ListShape(name, list.value.0, list.value.1);
    }
  }

  /** Every family name has one of the generated shapes, with its indices in range. */
  lemma FamilyNameGenerated(name: string)
    requires Family(name).Some?
    ensures GeneratedName(name)
  {
    if CustomDefinition(name).Some? {
      CustomDefinitionShape(name);
    } else {
      EcommerceKeyShape(name);
    }
  }

  lemma CustomDefinitionNameRegistered(name: string)
    requires CustomDefinitionName(name)
    ensures Family(name).Some?
  {
    var i: nat :| i < MaxCustomDefinitions &&
      (name == "dimension" + Dec(i) || name == "metric" + Dec(i) || name == "cd" + Dec(i) || name == "cm" + Dec(i));
    if name == "dimension" + Dec(i) {
      DimensionRegistered(i);
    } else if name == "metric" + Dec(i) {
      MetricRegistered(i);
    } else if name == "cd" + Dec(i) {
      CdRegistered(i);
    } else {
      CmRegistered(i);
    }
  }

  lemma ProductNameRegistered(name: string)
    requires ProductName(name)
    ensures Family(name).Some?
  {
    var p: nat, field: string :| 1 <= p < MaxEcProducts && (field in ProductFields || CustomSubKey(field)) &&
      name == "pr" + Dec(p) + field;
    if field in ProductFields {
      ProductFieldRegistered(p, field);
    } else {
      var c: nat :| c < MaxCustomDefinitions && (field == "cd" + Dec(c) || field == "cm" + Dec(c));
      var metric := field != "cd" + Dec(c);
      var kind := if metric then "cm" else "cd";
      assert field == kind + Dec(c);
      ProductCustomRegistered(p, c, metric);
      AppendAssoc("pr" + Dec(p), kind, Dec(c));
    }
  }

  lemma ImpressionNameRegistered(name: string)
    requires ImpressionName(name)
    ensures Family(name).Some?
  {
    var l: nat, rest: string :| 1 <= l < MaxEcLists && ImpressionSubKey(rest) && name == "il" + Dec(l) + rest;
    var p: nat, field: string :| 1 <= p < MaxEcProducts && (field in ImpressionFields || CustomSubKey(field)) &&
      rest == "pi" + Dec(p) + field;
    var list := "il" + Dec(l);
    if field in ImpressionFields {
      ImpressionFieldRegistered(l, p, field);
      AppendAssoc(list, "pi", Dec(p));
      AppendAssoc(list, "pi" + Dec(p), field);
    } else {
      var c: nat :| c < MaxCustomDefinitions && (field == "cd" + Dec(c) || field == "cm" + Dec(c));
      var metric := field != "cd" + Dec(c);
      assert field == (if metric then "cm" else "cd") + Dec(c);
      ImpressionCustomRegistered(l, p, c, metric);
    }
  }

  /** Every generated name is a family name. */
  lemma GeneratedNameRegistered(name: string)
    requires GeneratedName(name)
    ensures Family(name).Some?
  {
    if CustomDefinitionName(name) {
      CustomDefinitionNameRegistered(name);
    } else if name in EcommerceSingles {
      EcommerceSinglesRegistered(name);
    } else if PromotionName(name) {
      var k: nat, field: string :| 1 <= k < MaxEcPromotions && field in PromotionFields && name == "promo" + Dec(k) + field;
      PromotionFieldRegistered(k, field);
    } else if ProductName(name) {
      ProductNameRegistered(name);
    } else if ListName(name) {
      var l: nat :| 1 <= l < MaxEcLists && name == "il" + Dec(l) + "nm";
      ListNameRegistered(l);
    } else {
      ImpressionNameRegistered(name);
    }
  }

  /** The families register exactly the generated names. */
  lemma FamilyExactlyGenerated(name: string)
    ensures Family(name).Some? <==> GeneratedName(name)
  {
    if Family(name).Some? {
      FamilyNameGenerated(name);
    }
    if GeneratedName(name) {
      GeneratedNameRegistered(name);
    }
  }

  // ---------------------------------------------------------------------------
  // Resolution.
  // ---------------------------------------------------------------------------

  /** `name in parameter_alias` and its value: explicit declarations first, then the families. */
  function Lookup(t: AliasTable, name: string): Option<Entry>
  {
    if name in t then Some(t[name]) else Family(name)
  }

  /** The wire code a name stands for, without coercing any value. */
  function ResolveName(t: AliasTable, name: string): Result<string>
  {
    if |name| == 0 then Err(IndexError)
    else if name[0] == '&' then Ok(name[1..])
    else match Lookup(t, name)
      case Some(e) => Ok(e.base)
      case None => Err(KeyError)
  }

  /** Tracker.coerceParameter(name, value). */
  function CoerceParameter(t: AliasTable, py: Builtins, name: string, value: Value): (r: Result<(string, Value)>)
    ensures ResolveName(t, name).Err? ==> r == Err(ResolveName(t, name).error)
    ensures r.Ok? ==> ResolveName(t, name) == Ok(r.value.0)
  {
    if |name| == 0 then Err(IndexError)
    else if name[0] == '&' then Ok((name[1..], Str(py.str(value))))
    else match Lookup(t, name)
      case Some(e) => (match Coerce(py, e.typecast, value) case Ok(v) => Ok((e.base, v)) case Err(x) => Err(x))
      case None => Err(KeyError)
  }

  /** A name starting with & resolves to the rest of the name and str(value), registered or not. */
  lemma RawOverride(t: AliasTable, py: Builtins, rest: string, value: Value)
    ensures CoerceParameter(t, py, "&" + rest, value) == Ok((rest, Str(py.str(value))))
  {
    assert ("&" + rest)[0] == '&' && ("&" + rest)[1..] == rest;
  }

  /** A registered name resolves to its wire code and the typecast of the value. */
  lemma RegisteredNameResolves(t: AliasTable, py: Builtins, name: string, value: Value)
    requires name != "" && name[0] != '&'
    requires Lookup(t, name).Some?
    ensures var e := Lookup(t, name).value;
      CoerceParameter(t, py, name, value) ==
        match Coerce(py, e.typecast, value) case Ok(v) => Ok((e.base, v)) case Err(x) => Err(x)
  {
  }

  /** A name neither &-prefixed nor registered raises KeyError; the empty name raises IndexError. */
  lemma UnknownNameRaises(t: AliasTable, py: Builtins, name: string, value: Value)
    requires name == "" || (name[0] != '&' && Lookup(t, name).None?)
    ensures CoerceParameter(t, py, name, value) == Err(if name == "" then IndexError else KeyError)
  {
  }

  /**
   * After alias(typemap, base, *names), every listed name resolves exactly as
   * the base code does, to (base, typecast(value)), whatever was registered before.
   */
  lemma AliasesResolveAlike(t: AliasTable, py: Builtins, typemap: Coercer, base: string,
                            names: seq<string>, name: string, value: Value)
    requires name == base || name in names
    requires name != "" && name[0] != '&'
    ensures var r := CoerceParameter(Registered(t, typemap, base, names), py, name, value);
      r == match Coerce(py, typemap, value) case Ok(v) => Ok((base, v)) case Err(x) => Err(x)
  {
    RegisteredAt(t, typemap, base, names, name);
  }

  // ---------------------------------------------------------------------------
  // The declarations executed when the tracker module is imported.
  // ---------------------------------------------------------------------------

  /** One call Tracker.alias(typemap, base, *names). */
  datatype Decl = Decl(typemap: Coercer, base: string, names: seq<string>)

  /** The table after the declarations ds, in order. */
  function Declared(t: AliasTable, ds: seq<Decl>): AliasTable
    decreases |ds|
  {
    if ds == [] then t else Declared(Registered(t, ds[0].typemap, ds[0].base, ds[0].names), ds[1..])
  }

    /** The explicit protocol parameters, in declaration order, group by group as the module lists them. */
  function StandardDecls(): seq<Decl>
  {
    ProtocolDecls() + LaterDecls()
  }

  /** The declarations after the first group. */
  function LaterDecls(): seq<Decl>
  {
    CampaignDecls() + TechnicalDecls() + MobileAppDecls() + EcommerceDecls() + EventDecls() +
    SocialDecls() + ExceptionDecls() + ExperimentDecls() + TimingDecls()
  }

  /** The session, page and hit parameters. */
  function ProtocolDecls(): seq<Decl>
  {
    [ Decl(IntCast, "v", ["protocol-version"]),
      Decl(SafeUnicode, "cid", ["client-id", "clientId", "clientid"]),
      Decl(SafeUnicode, "tid", ["trackingId", "account"]),
      Decl(SafeUnicode, "uid", ["user-id", "userId", "userid"]),
      Decl(SafeUnicode, "uip", ["user-ip", "userIp", "ipaddr"]),
      Decl(SafeUnicode, "ua", ["userAgent", "userAgentOverride", "user-agent"]),
      Decl(SafeUnicode, "dp", ["page", "path"]),
      Decl(SafeUnicode, "dt", ["title", "pagetitle", "pageTitle", "page-title"]),
      Decl(SafeUnicode, "dl", ["location"]),
      Decl(SafeUnicode, "dh", ["hostname"]),
      Decl(SafeUnicode, "sc", ["sessioncontrol", "session-control", "sessionControl"]),
      Decl(SafeUnicode, "dr", ["referrer", "referer"]),
      Decl(IntCast, "qt", ["queueTime", "queue-time"]),
      Decl(SafeUnicode, "t", ["hitType", "hittype"]),
      Decl(IntCast, "aip", ["anonymizeIp", "anonIp", "anonymize-ip"])
    ]
  }

  /** Campaign attribution. */
  function CampaignDecls(): seq<Decl>
  {
    [ Decl(SafeUnicode, "cn", ["campaign", "campaignName", "campaign-name"]),
      Decl(SafeUnicode, "cs", ["source", "campaignSource", "campaign-source"]),
      Decl(SafeUnicode, "cm", ["medium", "campaignMedium", "campaign-medium"]),
      Decl(SafeUnicode, "ck", ["keyword", "campaignKeyword", "campaign-keyword"]),
      Decl(SafeUnicode, "cc", ["content", "campaignContent", "campaign-content"]),
      Decl(SafeUnicode, "ci", ["campaignId", "campaignID", "campaign-id"])
    ]
  }

  /** Technical specs. */
  function TechnicalDecls(): seq<Decl>
  {
    [ Decl(SafeUnicode, "sr", ["screenResolution", "screen-resolution", "resolution"]),
      Decl(SafeUnicode, "vp", ["viewport", "viewportSize", "viewport-size"]),
      Decl(SafeUnicode, "de", ["encoding", "documentEncoding", "document-encoding"]),
      Decl(IntCast, "sd", ["colors", "screenColors", "screen-colors"]),
      Decl(SafeUnicode, "ul", ["language", "user-language", "userLanguage"])
    ]
  }

  /** Mobile app. */
  function MobileAppDecls(): seq<Decl>
  {
    [ Decl(SafeUnicode, "an", ["appName", "app-name", "app"]),
      Decl(SafeUnicode, "cd", ["contentDescription", "screenName", "screen-name", "content-description"]),
      Decl(SafeUnicode, "av", ["appVersion", "app-version", "version"]),
      Decl(SafeUnicode, "aid", ["appID", "appId", "application-id", "app-id", "applicationId"]),
      Decl(SafeUnicode, "aiid", ["appInstallerId", "app-installer-id"])
    ]
  }

  /** E-commerce. */
  function EcommerceDecls(): seq<Decl>
  {
    [ Decl(SafeUnicode, "ta", ["affiliation", "transactionAffiliation", "transaction-affiliation"]),
      Decl(SafeUnicode, "ti", ["transaction", "transactionId", "transaction-id"]),
      Decl(FloatCast, "tr", ["revenue", "transactionRevenue", "transaction-revenue"]),
      Decl(FloatCast, "ts", ["shipping", "transactionShipping", "transaction-shipping"]),
      Decl(FloatCast, "tt", ["tax", "transactionTax", "transaction-tax"]),
      Decl(SafeUnicode, "cu", ["currency", "transactionCurrency", "transaction-currency"]),
      Decl(SafeUnicode, "in", ["item-name", "itemName"]),
      Decl(FloatCast, "ip", ["item-price", "itemPrice"]),
      Decl(FloatCast, "iq", ["item-quantity", "itemQuantity"]),
      Decl(SafeUnicode, "ic", ["item-code", "sku", "itemCode"]),
      Decl(SafeUnicode, "iv", ["item-variation", "item-category", "itemCategory", "itemVariation"])
    ]
  }

  /** Events. */
  function EventDecls(): seq<Decl>
  {
    [ Decl(SafeUnicode, "ec", ["event-category", "eventCategory", "category"]),
      Decl(SafeUnicode, "ea", ["event-action", "eventAction", "action"]),
      Decl(SafeUnicode, "el", ["event-label", "eventLabel", "label"]),
      Decl(IntCast, "ev", ["event-value", "eventValue", "value"]),
      Decl(IntCast, "ni", ["noninteractive", "nonInteractive", "noninteraction", "nonInteraction"])
    ]
  }

  /** Social interactions. */
  function SocialDecls(): seq<Decl>
  {
    [ Decl(SafeUnicode, "sa", ["social-action", "socialAction"]),
      Decl(SafeUnicode, "sn", ["social-network", "socialNetwork"]),
      Decl(SafeUnicode, "st", ["social-target", "socialTarget"])
    ]
  }

  /** Exceptions. */
  function ExceptionDecls(): seq<Decl>
  {
    [ Decl(SafeUnicode, "exd", ["exception-description", "exceptionDescription", "exDescription"]),
      Decl(IntCast, "exf", ["exception-fatal", "exceptionFatal", "exFatal"])
    ]
  }

  /** Experiments. */
  function ExperimentDecls(): seq<Decl>
  {
    [ Decl(SafeUnicode, "exp", ["experiment"])
    ]
  }

  /** User timing. */
  function TimingDecls(): seq<Decl>
  {
    [ Decl(SafeUnicode, "utc", ["timingCategory", "timing-category"]),
      Decl(SafeUnicode, "utv", ["timingVariable", "timing-variable"]),
      Decl(IntCast, "utt", ["time", "timingTime", "timing-time"]),
      Decl(SafeUnicode, "utl", ["timingLabel", "timing-label"]),
      Decl(FloatCast, "dns", ["timingDNS", "timing-dns"]),
      Decl(FloatCast, "pdt", ["timingPageLoad", "timing-page-load"]),
      Decl(FloatCast, "rrt", ["timingRedirect", "timing-redirect"]),
      Decl(SafeUnicode, "tcp", ["timingTCPConnect", "timing-tcp-connect"]),
      Decl(SafeUnicode, "srt", ["timingServerResponse", "timing-server-response"])
    ]
  }

  /** Whether the declaration registers k, as its base code or as one of its names. */
  predicate Mentions(d: Decl, k: string) {
    k == d.base || k in d.names
  }

  /** A key no declaration mentions keeps its prior entry, or stays absent. */
  lemma {:induction false} DeclaredUntouched(t: AliasTable, ds: seq<Decl>, k: string)
    requires forall i :: 0 <= i < |ds| ==> !Mentions(ds[i], k)
    ensures k in Declared(t, ds) <==> k in t
    ensures k in t ==> Declared(t, ds)[k] == t[k]
    decreases |ds|
  {
    if ds != [] {
      RegisteredAt(t, ds[0].typemap, ds[0].base, ds[0].names, k);
      assert forall i :: 0 <= i < |ds| - 1 ==> ds[1..][i] == ds[i + 1];
      DeclaredUntouched(Registered(t, ds[0].typemap, ds[0].base, ds[0].names), ds[1..], k);
    }
  }

  /** Re-registration overwrites: a key ends up with the entry of the last declaration mentioning it. */
  lemma {:induction false} DeclaredLast(t: AliasTable, ds: seq<Decl>, i: nat, k: string)
    requires i < |ds| && Mentions(ds[i], k)
    requires forall j :: i < j < |ds| ==> !Mentions(ds[j], k)
    ensures k in Declared(t, ds) && Declared(t, ds)[k] == Entry(ds[i].typemap, ds[i].base)
    decreases |ds|
  {
    var t' := Registered(t, ds[0].typemap, ds[0].base, ds[0].names);
    RegisteredAt(t, ds[0].typemap, ds[0].base, ds[0].names, k);
    assert forall j :: 0 <= j < |ds| - 1 ==> ds[1..][j] == ds[j + 1];
    if i == 0 {
      DeclaredUntouched(t', ds[1..], k);
    } else {
      DeclaredLast(t', ds[1..], i - 1, k);
    }
  }

  /** Running a + b is running a, then b. */
  lemma {:induction false} DeclaredAppend(t: AliasTable, a: seq<Decl>, b: seq<Decl>)
    ensures Declared(t, a + b) == Declared(Declared(t, a), b)
    decreases |a|
  {
    if a != [] {
      assert (a + b)[0] == a[0] && (a + b)[1..] == a[1..] + b;
      DeclaredAppend(Registered(t, a[0].typemap, a[0].base, a[0].names), a[1..], b);
    } else {
      assert a + b == b;
    }
  }

  /** No declaration of ds registers k. */
  predicate Silent(ds: seq<Decl>, k: string) {
    forall j :: 0 <= j < |ds| ==> !Mentions(ds[j], k)
  }

  lemma SilentAppend(a: seq<Decl>, b: seq<Decl>, k: string)
    requires Silent(a, k) && Silent(b, k)
    ensures Silent(a + b, k)
  {
    forall j | 0 <= j < |a + b| ensures !Mentions((a + b)[j], k) {
      if j < |a| {
        assert (a + b)[j] == a[j];
      } else {
        assert (a + b)[j] == b[j - |a|];
      }
    }
  }

  /** The codes a plain hit goes through, and the page alias of dp. */
  predicate HitCode(k: string) {
    k == "v" || k == "cid" || k == "tid" || k == "dp" || k == "t" || k == "page"
  }

  lemma CampaignSilent(k: string)
    requires HitCode(k)
    ensures Silent(CampaignDecls(), k)
  {
  }

  lemma TechnicalSilent(k: string)
    requires HitCode(k)
    ensures Silent(TechnicalDecls(), k)
  {
  }

  lemma MobileAppSilent(k: string)
    requires HitCode(k)
    ensures Silent(MobileAppDecls(), k)
  {
  }

  lemma EcommerceSilent(k: string)
    requires HitCode(k)
    ensures Silent(EcommerceDecls(), k)
  {
  }

  lemma EventSilent(k: string)
    requires HitCode(k)
    ensures Silent(EventDecls(), k)
  {
  }

  lemma SocialSilent(k: string)
    requires HitCode(k)
    ensures Silent(SocialDecls(), k)
  {
  }

  lemma ExceptionSilent(k: string)
    requires HitCode(k)
    ensures Silent(ExceptionDecls(), k)
  {
  }

  lemma ExperimentSilent(k: string)
    requires HitCode(k)
    ensures Silent(ExperimentDecls(), k)
  {
  }

  lemma TimingSilent(k: string)
    requires HitCode(k)
    ensures Silent(TimingDecls(), k)
  {
  }

  /** None of the later groups re-registers a hit code. */
  lemma LaterDeclsSilent(k: string)
    requires HitCode(k)
    ensures Silent(LaterDecls(), k)
  {
    var a := CampaignDecls();
    var b := TechnicalDecls();
    var c := MobileAppDecls();
    var d := EcommerceDecls();
    var e := EventDecls();
    var f := SocialDecls();
    var g := ExceptionDecls();
    var h := ExperimentDecls();
    var m := TimingDecls();
    CampaignSilent(k);
    TechnicalSilent(k);
    MobileAppSilent(k);
    EcommerceSilent(k);
    EventSilent(k);
    SocialSilent(k);
    ExceptionSilent(k);
    ExperimentSilent(k);
    TimingSilent(k);
    SilentAppend(a, b, k);
    SilentAppend(a + b, c, k);
    SilentAppend(a + b + c, d, k);
    SilentAppend(a + b + c + d, e, k);
    SilentAppend(a + b + c + d + e, f, k);
    SilentAppend(a + b + c + d + e + f, g, k);
    SilentAppend(a + b + c + d + e + f + g, h, k);
    SilentAppend(a + b + c + d + e + f + g + h, m, k);
  }

  /** The first group registers each hit code to itself, and the later groups leave it so. */
  lemma ProtocolCodeDeclared(t: AliasTable, i: nat, k: string, c: Coercer)
    requires i < |ProtocolDecls()| && ProtocolDecls()[i].base == k && ProtocolDecls()[i].typemap == c
    requires forall j :: i < j < |ProtocolDecls()| ==> !Mentions(ProtocolDecls()[j], k)
    requires HitCode(k)
    ensures k in Declared(t, StandardDecls()) && Declared(t, StandardDecls())[k] == Entry(c, k)
  {
    DeclaredLast(t, ProtocolDecls(), i, k);
    LaterDeclsSilent(k);
    LaterKeepsHitCode(t, k);
  }

  /** After the first group, the hit codes do not change. */
  lemma LaterKeepsHitCode(t: AliasTable, k: string)
    requires Silent(LaterDecls(), k)
    ensures k in Declared(t, StandardDecls()) <==> k in Declared(t, ProtocolDecls())
    ensures k in Declared(t, ProtocolDecls()) ==> Declared(t, StandardDecls())[k] == Declared(t, ProtocolDecls())[k]
  {
    DeclaredSilentSuffix(t, ProtocolDecls(), LaterDecls(), k);
  }

  /** Declarations that do not mention k leave its entry as the earlier ones made it. */
  lemma DeclaredSilentSuffix(t: AliasTable, a: seq<Decl>, b: seq<Decl>, k: string)
    requires Silent(b, k)
    ensures k in Declared(t, a + b) <==> k in Declared(t, a)
    ensures k in Declared(t, a) ==> Declared(t, a + b)[k] == Declared(t, a)[k]
  {
    DeclaredAppend(t, a, b);
    DeclaredUntouched(Declared(t, a), b, k);
  }

  lemma StandardVersionCode(t: AliasTable)
    ensures "v" in Declared(t, StandardDecls()) && Declared(t, StandardDecls())["v"] == Entry(IntCast, "v")
  {
    var ds := ProtocolDecls();
    assert ds[0] == Decl(IntCast, "v", ["protocol-version"]);
    forall j | 0 < j < |ds| ensures !Mentions(ds[j], "v") {
    }
    ProtocolCodeDeclared(t, 0, "v", IntCast);
  }

  lemma StandardClientIdCode(t: AliasTable)
    ensures "cid" in Declared(t, StandardDecls()) && Declared(t, StandardDecls())["cid"] == Entry(SafeUnicode, "cid")
  {
    var ds := ProtocolDecls();
    assert ds[1] == Decl(SafeUnicode, "cid", ["client-id", "clientId", "clientid"]);
    forall j | 1 < j < |ds| ensures !Mentions(ds[j], "cid") {
    }
    ProtocolCodeDeclared(t, 1, "cid", SafeUnicode);
  }

  lemma StandardTrackingIdCode(t: AliasTable)
    ensures "tid" in Declared(t, StandardDecls()) && Declared(t, StandardDecls())["tid"] == Entry(SafeUnicode, "tid")
  {
    var ds := ProtocolDecls();
    assert ds[2] == Decl(SafeUnicode, "tid", ["trackingId", "account"]);
    forall j | 2 < j < |ds| ensures !Mentions(ds[j], "tid") {
    }
    ProtocolCodeDeclared(t, 2, "tid", SafeUnicode);
  }

  lemma StandardPageCode(t: AliasTable)
    ensures "dp" in Declared(t, StandardDecls()) && Declared(t, StandardDecls())["dp"] == Entry(SafeUnicode, "dp")
  {
    var ds := ProtocolDecls();
    assert ds[6] == Decl(SafeUnicode, "dp", ["page", "path"]);
    forall j | 6 < j < |ds| ensures !Mentions(ds[j], "dp") {
    }
    ProtocolCodeDeclared(t, 6, "dp", SafeUnicode);
  }

  lemma StandardPageAlias(t: AliasTable)
    ensures "page" in Declared(t, StandardDecls()) && Declared(t, StandardDecls())["page"] == Entry(SafeUnicode, "dp")
  {
    var ds := ProtocolDecls();
    assert ds[6] == Decl(SafeUnicode, "dp", ["page", "path"]);
    forall j | 6 < j < |ds| ensures !Mentions(ds[j], "page") {
    }
    DeclaredLast(t, ds, 6, "page");
    LaterDeclsSilent("page");
    LaterKeepsHitCode(t, "page");
  }

  lemma StandardHitTypeCode(t: AliasTable)
    ensures "t" in Declared(t, StandardDecls()) && Declared(t, StandardDecls())["t"] == Entry(SafeUnicode, "t")
  {
    var ds := ProtocolDecls();
    assert ds[13] == Decl(SafeUnicode, "t", ["hitType", "hittype"]);
    ProtocolCodeDeclared(t, 13, "t", SafeUnicode);
  }

  /** Runs the declarations ds against the registry, in order. */
  method DeclareAll(r: AliasRegistry, ds: seq<Decl>)
    modifies r
    ensures r.table == Declared(old(r.table), ds)
  {
    for i := 0 to |ds|
      invariant Declared(r.table, ds[i..]) == Declared(old(r.table), ds)
    {
      assert ds[i..][0] == ds[i] && ds[i..][1..] == ds[i + 1..];
      r.Alias(ds[i].typemap, ds[i].base, ds[i].names);
    }
  }

  /** The explicit declarations of the tracker module; the families are covered by Family. */
  method DeclareStandardAliases(r: AliasRegistry)
    modifies r
    ensures r.table == Declared(old(r.table), StandardDecls())
  {
    DeclareAll(r, StandardDecls());
  }
}

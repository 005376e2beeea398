/**
 * Province resolution: the fixed table of the eight Andalusian provinces and
 * the trim-then-exact-lookup that turns the typed text into a province code.
 */
module Provinces {
  import opened Wrappers
  import opened Text

  /** The province names, spelt with Spanish capitals and accents, and the provider's two-digit codes. */
  const CodigoProvincia: map<string, string> := map[
    "Almería" := "04",
    "Cádiz" := "11",
    "Córdoba" := "14",
    "Granada" := "18",
    "Huelva" := "21",
    "Jaén" := "23",
    "Málaga" := "29",
    "Sevilla" := "41"
  ]

  predicate IsDigit(c: char)
  {
    '0' <= c <= '9'
  }

  /** `codigoProvincia[provincia.trim()]`: the code, or None when the trimmed text is not one of the keys. */
  function Resolve(provincia: string): Option<string>
  {
    var name := Trim(provincia);
    if name in CodigoProvincia then Some(CodigoProvincia[name]) else None
  }

  /** The table holds exactly these eight entries. */
  lemma TableEntries(name: string)
    requires name in CodigoProvincia
    ensures || (name == "Almería" && CodigoProvincia[name] == "04")
            || (name == "Cádiz" && CodigoProvincia[name] == "11")
            || (name == "Córdoba" && CodigoProvincia[name] == "14")
            || (name == "Granada" && CodigoProvincia[name] == "18")
            || (name == "Huelva" && CodigoProvincia[name] == "21")
            || (name == "Jaén" && CodigoProvincia[name] == "23")
            || (name == "Málaga" && CodigoProvincia[name] == "29")
            || (name == "Sevilla" && CodigoProvincia[name] == "41")
  {
  }

  /** Every key of the table is already trimmed, non-empty and starts with a capital letter. */
  lemma NamesAreTrimmed(name: string)
    requires name in CodigoProvincia
    ensures name != [] && IsTrimmed(name) && IsUpper(name[0])
  {
    TableEntries(name);
  }

  /** A table name padded with any whitespace resolves to exactly that name's code. */
  lemma ResolvePadded(p: string, name: string, q: string)
    requires name in CodigoProvincia
    requires AllWhitespace(p) && AllWhitespace(q)
    ensures Resolve(p + name + q) == Some(CodigoProvincia[name])
  {
    NamesAreTrimmed(name);
    TrimPadded(p, name, q);
  }

  /** " Sevilla ", padded with spaces, resolves to "41". */
  lemma ResolveSevillaPadded()
    ensures Resolve(" Sevilla ") == Some("41")
  {
    assert " Sevilla " == " " + "Sevilla" + " ";
    ResolvePadded(" ", "Sevilla", " ");
  }

  /** Text that is empty or whitespace only gets no code. */
  lemma ResolveBlank(s: string)
    requires AllWhitespace(s)
    ensures Resolve(s) == None
  {
    NotAKey([]);
    assert s + [] + [] == s;
    ResolveRejects(s, [], []);
  }

  /** Any padded text whose trimmed core is not exactly one of the keys gets no code. */
  lemma ResolveRejects(p: string, core: string, q: string)
    requires AllWhitespace(p) && AllWhitespace(q)
    requires IsTrimmed(core) && core !in CodigoProvincia
    ensures Resolve(p + core + q) == None
  {
    TrimPadded(p, core, q);
  }

  /** No key is empty or starts with anything but a capital letter. */
  lemma NotAKey(s: string)
    requires s == [] || !IsUpper(s[0])
    ensures s !in CodigoProvincia
  {
    if s in CodigoProvincia {
      NamesAreTrimmed(s);
      assert false;
    }
  }

  /** A trimmed text that does not start with a capital letter gets no code. */
  lemma ResolveRejectsUncapitalised(s: string)
    requires IsTrimmed(s) && (s == [] || !IsUpper(s[0]))
    ensures Resolve(s) == None
  {
    NotAKey(s);
    assert [] + s + [] == s;
    ResolveRejects([], s, []);
  }

  /** Matching is case-sensitive: an all-lowercase spelling of a table name, such as "sevilla", gets no code. */
  lemma ResolveLowercaseRejected(name: string)
    requires name in CodigoProvincia
    ensures Resolve(ToLower(name)) == None
  {
    NamesAreTrimmed(name);
    ToLowerKeepsTrimmed(name);
    ResolveRejectsUncapitalised(ToLower(name));
  }

  /** Matching is accent-sensitive: "Almeria" without its accent gets no code. */
  lemma ResolveUnaccentedRejected()
    ensures Resolve("Almeria") == None
  {
    assert [] + "Almeria" + [] == "Almeria";
    ResolveRejects([], "Almeria", []);
  }

  /** Resolving the trimmed text gives the same answer as resolving the raw text. */
  lemma ResolveTrimmed(provincia: string)
    ensures Resolve(Trim(provincia)) == Resolve(provincia)
  {
    TrimIdempotent(provincia);
  }

  /** Every resolved code consists of two decimal digits. */
  lemma ResolvedCodeIsTwoDigits(provincia: string)
    requires Resolve(provincia).Some?
    ensures |Resolve(provincia).value| == 2
    ensures IsDigit(Resolve(provincia).value[0]) && IsDigit(Resolve(provincia).value[1])
  {
    TableEntries(Trim(provincia));
  }

  /** No two provinces share a code: a code determines the trimmed name it came from. */
  lemma ResolveInjective(a: string, b: string)
    requires Resolve(a).Some? && Resolve(a) == Resolve(b)
    ensures Trim(a) == Trim(b)
  {
    TableEntries(Trim(a));
    TableEntries(Trim(b));
  }

  /**
   * What `codigoProvincia[key]` yields in JavaScript: an own property of the
   * object literal, or a property inherited from `Object.prototype`.
   */
  datatype Property = Own(code: string) | Inherited(name: string)

  /** The property names every plain object inherits from `Object.prototype`; each holds a function or an object, so each is truthy. */
  const ObjectPrototypeKeys: set<string> := {
    "constructor", "hasOwnProperty", "isPrototypeOf", "propertyIsEnumerable",
    "toLocaleString", "toString", "valueOf", "__proto__",
    "__defineGetter__", "__defineSetter__", "__lookupGetter__", "__lookupSetter__"
  }

  /** The lookup as the code performs it, prototype chain included; None is `undefined`, the only value the `!codigo` guard rejects. */
  function ResolveAsWritten(provincia: string): Option<Property>
  {
    var name := Trim(provincia);
    if name in CodigoProvincia then Some(Own(CodigoProvincia[name]))
    else if name in ObjectPrototypeKeys then Some(Inherited(name))
    else None
  }

  /** Typing "toString" gets past the guard as written: the value found is not a province code, yet a request would be issued with it. */
  lemma InheritedKeyPassesGuard()
    ensures ResolveAsWritten("toString") == Some(Inherited("toString"))
    ensures Resolve("toString") == None
  {
    NotAKey("toString");
    assert [] + "toString" + [] == "toString";
    TrimPadded([], "toString", []);
  }

  /** The two lookups agree on every text except the inherited names, which the exact lookup rejects. */
  lemma ResolveAgreesOnOwnKeys(provincia: string)
    ensures ResolveAsWritten(provincia).None? ==> Resolve(provincia).None?
    ensures Resolve(provincia).Some? ==> ResolveAsWritten(provincia) == Some(Own(Resolve(provincia).value))
    ensures ResolveAsWritten(provincia).Some? && Resolve(provincia).None? ==>
      ResolveAsWritten(provincia).value.Inherited? && Trim(provincia) in ObjectPrototypeKeys
  {
  }
}

/** City-name normalisation (`normalize_city`): Unicode canonical
    decomposition, removal of non-spacing combining marks (category Mn),
    upper-casing and trimming of surrounding whitespace. The Unicode
    tables are not modelled; they are the fields of `UnicodeTables`. */
module CityKey {

  /** A Python value handed to the normaliser: a `str`, `None`, or some
      other non-string object (a float NaN from a spreadsheet cell, say),
      with its Python truthiness. */
  datatype PyValue = Str(s: string) | NoneValue | Other(truthy: bool)

  /** Python truthiness of the value. */
  predicate Truthy(v: PyValue)
  {
    match v
    case Str(s) => s != []
    case NoneValue => false
    case Other(t) => t
  }

  /** The Unicode data the normaliser consults:
      `nfd` is canonical decomposition (NFD) of a whole string,
      `isMn(c)` says that `c` is in the general category Mn,
      `upper(c)` is the full upper-case mapping of one code point
      (`str.upper` maps code point by code point, possibly to several),
      `isSpace(c)` is `str.isspace` on one code point (what `strip` removes). */
  datatype UnicodeTables = UnicodeTables(
    nfd: string -> string,
    isMn: char -> bool,
    upper: char -> string,
    isSpace: char -> bool)

  /** The characters of `d` that are not combining marks, in order. */
  function DropMarks(d: string, isMn: char -> bool): (r: string)
    ensures |r| <= |d|
    ensures forall i :: 0 <= i < |r| ==> !isMn(r[i])
    ensures forall c :: c in r <==> c in d && !isMn(c)
  {
    if d == [] then []
    else if isMn(d[0]) then DropMarks(d[1..], isMn)
    else [d[0]] + DropMarks(d[1..], isMn)
  }

  /** `str.upper`: the concatenation of the upper-case mappings of the
      characters of `s`. */
  function UpperAll(s: string, upper: char -> string): (r: string)
    ensures forall ch :: ch in r ==> exists c :: c in s && ch in upper(c)
    ensures forall c, ch :: c in s && ch in upper(c) ==> ch in r
  {
    if s == [] then []
    else
      var rest := UpperAll(s[1..], upper);
      assert forall ch :: ch in rest ==> exists c :: c in s && ch in upper(c) by {
        forall ch | ch in rest ensures exists c :: c in s && ch in upper(c) {
          var c :| c in s[1..] && ch in upper(c);
          assert c in s;
        }
      }
      assert forall c :: c in s ==> c == s[0] || c in s[1..];
      upper(s[0]) + rest
  }

  /** Dropping marks works character by character: it distributes over
      concatenation, and keeps a single character exactly when it is not a
      mark. With `DropMarks([]) == []` these laws determine the function:
      the non-mark characters, all of them, in order. */
  lemma {:induction false} DropMarksAppend(a: string, b: string, isMn: char -> bool)
    ensures DropMarks(a + b, isMn) == DropMarks(a, isMn) + DropMarks(b, isMn)
    ensures forall c :: DropMarks([c], isMn) == if isMn(c) then [] else [c]
    decreases |a|
  {
    if a != [] {
      assert (a + b)[1..] == a[1..] + b;
      DropMarksAppend(a[1..], b, isMn);
    } else {
      assert a + b == b;
    }
  }

  /** Upper-casing works character by character: it distributes over
      concatenation, and maps a single character to its own upper-case
      mapping. */
  lemma {:induction false} UpperAllAppend(a: string, b: string, upper: char -> string)
    ensures UpperAll(a + b, upper) == UpperAll(a, upper) + UpperAll(b, upper)
    ensures forall c :: UpperAll([c], upper) == upper(c)
    decreases |a|
  {
    if a != [] {
      assert (a + b)[1..] == a[1..] + b;
      UpperAllAppend(a[1..], b, upper);
    } else {
      assert a + b == b;
    }
    forall c ensures UpperAll([c], upper) == upper(c) {
      assert UpperAll([c][1..], upper) == [];
    }
  }

  /** The number of whitespace characters `s` starts with. */
  function LeadingSpaces(s: string, isSpace: char -> bool): (k: nat)
    ensures k <= |s|
    ensures forall i :: 0 <= i < k ==> isSpace(s[i])
    ensures k < |s| ==> !isSpace(s[k])
  {
    if s != [] && isSpace(s[0]) then 1 + LeadingSpaces(s[1..], isSpace) else 0
  }

  /** `s` without its trailing whitespace. */
  function TrimRight(s: string, isSpace: char -> bool): (r: string)
    ensures |r| <= |s| && r == s[..|r|]
    ensures forall i :: |r| <= i < |s| ==> isSpace(s[i])
    ensures r != [] ==> !isSpace(r[|r| - 1])
  {
    if s != [] && isSpace(s[|s| - 1]) then TrimRight(s[..|s| - 1], isSpace) else s
  }

  /** `str.strip()`: the slice of `s` that starts after its leading
      whitespace and leaves only whitespace after it, and neither of whose
      ends is whitespace. */
  function Strip(s: string, isSpace: char -> bool): (r: string)
    ensures LeadingSpaces(s, isSpace) + |r| <= |s|
    ensures r == s[LeadingSpaces(s, isSpace)..LeadingSpaces(s, isSpace) + |r|]
    ensures forall i :: LeadingSpaces(s, isSpace) + |r| <= i < |s| ==> isSpace(s[i])
    ensures r != [] ==> !isSpace(r[0]) && !isSpace(r[|r| - 1])
  {
    TrimRight(s[LeadingSpaces(s, isSpace)..], isSpace)
  }

  /** The text `normalize_city` strips: the decomposition of `s` without its
      marks, upper-cased. */
  function Folded(s: string, t: UnicodeTables): string
  {
    UpperAll(DropMarks(t.nfd(s), t.isMn), t.upper)
  }

  /** `normalize_city`: "" for a non-string; otherwise the folded text with
      exactly its surrounding whitespace removed: it starts right after the
      folded text's leading whitespace, only whitespace follows it, and
      neither of its ends is whitespace. */
  function NormalizeCity(v: PyValue, t: UnicodeTables): (r: string)
    ensures !v.Str? ==> r == []
    ensures r != [] ==> !t.isSpace(r[0]) && !t.isSpace(r[|r| - 1])
    ensures v.Str? ==>
      var u := Folded(v.s, t);
      var k := LeadingSpaces(u, t.isSpace);
      && k + |r| <= |u|
      && r == u[k..k + |r|]
      && (forall i :: 0 <= i < k ==> t.isSpace(u[i]))
      && (forall i :: k + |r| <= i < |u| ==> t.isSpace(u[i]))
  {
    match v
    case Str(s) =>
      Strip(Folded(s, t), t.isSpace)
    case _ => []
  }

  /** The key the resolver uses for a state: the normalised state when the
      value is truthy, else the empty string. */
  function StateKey(uf: PyValue, t: UnicodeTables): (r: string)
    ensures !Truthy(uf) ==> r == []
    ensures !uf.Str? ==> r == []
    ensures Truthy(uf) ==> r == NormalizeCity(uf, t)
    ensures r != [] ==> !t.isSpace(r[0]) && !t.isSpace(r[|r| - 1])
  {
    if Truthy(uf) then NormalizeCity(uf, t) else []
  }

  /** When the folded text neither starts nor ends with whitespace, the
      normalised name is all of it: every kept character, in order. */
  lemma NormalizeKeepsAll(s: string, t: UnicodeTables)
    requires Folded(s, t) != []
    requires !t.isSpace(Folded(s, t)[0]) && !t.isSpace(Folded(s, t)[|Folded(s, t)| - 1])
    ensures NormalizeCity(Str(s), t) == Folded(s, t)
  {
  }

  /** Every character of a normalised name is the upper case of a character
      of the decomposed input that was not a combining mark. */
  lemma NormalizedFromUnmarked(s: string, t: UnicodeTables)
    ensures var r := NormalizeCity(Str(s), t);
      forall i :: 0 <= i < |r| ==> exists c :: c in t.nfd(s) && !t.isMn(c) && r[i] in t.upper(c)
  {
    var u := Folded(s, t);
    var r := NormalizeCity(Str(s), t);
    var k := LeadingSpaces(u, t.isSpace);
    forall i | 0 <= i < |r| ensures exists c :: c in t.nfd(s) && !t.isMn(c) && r[i] in t.upper(c) {
      assert r[i] == u[k + i];
      assert r[i] in u;
    }
  }

  /** Invented tables in which `nfd` leaves text alone and upper-casing one
      letter yields a capital followed by a combining caron. (Real NFD
      decomposes that letter, U+01F0, before the marks are dropped, so these
      tables are not Unicode's; they only show what the code leaves open.) */
  const CaronTables := UnicodeTables(
    s => s,
    c => c == '̌',
    c => if c == 'ǰ' then "J̌" else [c],
    c => c == ' ')

  /** With the invented tables, one normalisation keeps the caron that
      upper-casing produced... */
  lemma CaronOnce()
    ensures NormalizeCity(Str("ǰ"), CaronTables) == "J̌"
  {
    var t := CaronTables;
    assert t.nfd("ǰ") == "ǰ";
    assert DropMarks("ǰ", t.isMn) == "ǰ";
    assert t.upper('ǰ') == "J̌";
    assert UpperAll("ǰ", t.upper) == "J̌";
    assert LeadingSpaces("J̌", t.isSpace) == 0;
    assert TrimRight("J̌", t.isSpace) == "J̌";
  }

  /** ... and a second one drops it. */
  lemma CaronTwice()
    ensures NormalizeCity(Str("J̌"), CaronTables) == "J"
  {
    var t := CaronTables;
    assert t.nfd("J̌") == "J̌";
    assert DropMarks("J̌", t.isMn) == "J";
    assert t.upper('J') == "J";
    assert UpperAll("J", t.upper) == "J";
    assert LeadingSpaces("J", t.isSpace) == 0;
    assert TrimRight("J", t.isSpace) == "J";
  }

  /** Upper-casing runs after the marks are dropped and may, for some
      tables, reintroduce one; nothing in `normalize_city` itself makes it
      idempotent. For the invented tables above, normalising twice differs
      from normalising once. */
  lemma NormalizeNotIdempotent()
    ensures NormalizeCity(Str(NormalizeCity(Str("ǰ"), CaronTables)), CaronTables)
         != NormalizeCity(Str("ǰ"), CaronTables)
  {
    CaronOnce();
    CaronTwice();
  }
}

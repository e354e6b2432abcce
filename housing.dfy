/** Housing-type canonicalisation of `Transistor.Metadata`: a housing type is
    compared with the reference list after `re.sub("[^A-Za-z0-9]+", "", s)`,
    `.lstrip()` and `.lower()`, and the reference list's own spelling is stored. */
module Housing {
  import opened Values

  predicate IsAsciiAlnum(c: char) {
    ('A' <= c <= 'Z') || ('a' <= c <= 'z') || ('0' <= c <= '9')
  }

  /** The characters a normalised housing type consists of: `[a-z0-9]`. */
  predicate IsNormalChar(c: char) {
    ('a' <= c <= 'z') || ('0' <= c <= '9')
  }

  function ToLower(c: char): (l: char)
    requires IsAsciiAlnum(c)
    ensures IsNormalChar(l)
    ensures 'A' <= c <= 'Z' ==> l as int == c as int + 32
    ensures !('A' <= c <= 'Z') ==> l == c
  {
    if 'A' <= c <= 'Z' then (c as int + 32) as char else c
  }

  /** Keep the ASCII letters and digits, lower-cased, in their order. Nothing is
      left for `.lstrip()` to remove, since whitespace is not kept. */
  function Normalize(s: string): (r: string)
    ensures |r| <= |s|
    ensures forall i :: 0 <= i < |r| ==> IsNormalChar(r[i])
  {
    if s == [] then []
    else (if IsAsciiAlnum(s[0]) then [ToLower(s[0])] else []) + Normalize(s[1..])
  }

  /** A string of `[a-z0-9]` is its own normal form. */
  lemma {:induction false} NormalizeFixed(s: string)
    requires forall i :: 0 <= i < |s| ==> IsNormalChar(s[i])
    ensures Normalize(s) == s
  {
    if s != [] {
      NormalizeFixed(s[1..]);
    }
  }

  /** Normalisation is idempotent. */
  lemma NormalizeIdempotent(s: string)
    ensures Normalize(Normalize(s)) == Normalize(s)
  {
    NormalizeFixed(Normalize(s));
  }

  /** Normalisation works character by character. */
  lemma {:induction false} NormalizeConcat(s: string, t: string)
    ensures Normalize(s + t) == Normalize(s) + Normalize(t)
  {
    if s == [] {
      assert s + t == t;
    } else {
      assert (s + t)[1..] == s[1..] + t;
      NormalizeConcat(s[1..], t);
    }
  }

  /** Punctuation and blanks are ignored and letters compare without case:
      "TO-247", "to247" and "TO 247" all normalise to "to247". */
  lemma SpellingsOfTo247()
    ensures Normalize("TO-247") == "to247"
    ensures Normalize("to247") == "to247"
    ensures Normalize("TO 247") == "to247"
  {
    NormalizeFixed("to247");
    NormalizeFixed("247");
    assert "-247"[1..] == "247" && " 247"[1..] == "247";
    assert Normalize("-247") == "247" && Normalize(" 247") == "247";
    assert "O-247"[1..] == "-247" && "O 247"[1..] == " 247";
    assert Normalize("O-247") == "o247" && Normalize("O 247") == "o247";
    assert "TO-247"[1..] == "O-247" && "TO 247"[1..] == "O 247";
  }

  /** `alphanum_housing_types`: the reference list, each entry normalised. */
  function NormalizeAll(housingTypes: seq<string>): (r: seq<string>)
    ensures |r| == |housingTypes|
    ensures forall i :: 0 <= i < |r| ==> r[i] == Normalize(housingTypes[i])
  {
    seq(|housingTypes|, i requires 0 <= i < |housingTypes| => Normalize(housingTypes[i]))
  }

  /** Whether a user-supplied housing type names an entry of the reference list. */
  predicate IsKnownHousingType(housingTypes: seq<string>, s: string) {
    Normalize(s) in NormalizeAll(housingTypes)
  }

  /** `housing_types[alphanum_housing_types.index(normalised)]`: the reference
      entry at the first position whose normal form matches. */
  function CanonicalHousingType(housingTypes: seq<string>, s: string): (c: string)
    requires IsKnownHousingType(housingTypes, s)
    ensures c in housingTypes
    ensures Normalize(c) == Normalize(s)
    ensures exists i :: 0 <= i < |housingTypes| && c == housingTypes[i] &&
              forall j :: 0 <= j < i ==> Normalize(housingTypes[j]) != Normalize(s)
  {
    var i := IndexOf(NormalizeAll(housingTypes), Normalize(s));
    housingTypes[i]
  }

  /** Membership in the reference list is decided by the normal form alone, so
      every spelling of an entry is accepted. */
  lemma KnownIffSomeEntryMatches(housingTypes: seq<string>, s: string)
    ensures IsKnownHousingType(housingTypes, s) <==>
              exists i :: 0 <= i < |housingTypes| && Normalize(housingTypes[i]) == Normalize(s)
  {
    var n := NormalizeAll(housingTypes);
    if exists i :: 0 <= i < |housingTypes| && Normalize(housingTypes[i]) == Normalize(s) {
      var i :| 0 <= i < |housingTypes| && Normalize(housingTypes[i]) == Normalize(s);
      assert n[i] == Normalize(s);
    }
  }

  /** Canonicalising a canonical spelling changes nothing, and two spellings with
      the same normal form get the same canonical spelling. */
  lemma CanonicalIsStable(housingTypes: seq<string>, s: string, t: string)
    requires IsKnownHousingType(housingTypes, s)
    requires Normalize(t) == Normalize(s)
    ensures IsKnownHousingType(housingTypes, t)
    ensures CanonicalHousingType(housingTypes, t) == CanonicalHousingType(housingTypes, s)
    ensures IsKnownHousingType(housingTypes, CanonicalHousingType(housingTypes, s))
    ensures CanonicalHousingType(housingTypes, CanonicalHousingType(housingTypes, s)) ==
              CanonicalHousingType(housingTypes, s)
  {
  }
}

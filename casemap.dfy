/**
 * The name transformer: the case mappings the templates apply to the entity
 * name. JavaScript's `toUpperCase`/`toLowerCase` are modelled on ASCII
 * letters only; every other character is left as it is.
 */
module CaseMap {

  predicate IsLower(c: char) { 'a' <= c <= 'z' }

  predicate IsUpper(c: char) { 'A' <= c <= 'Z' }

  /** ASCII `toUpperCase` of one character. */
  function UpperChar(c: char): (r: char)
    ensures !IsLower(r)
    ensures IsLower(c) ==> IsUpper(r) && r as int == c as int - 32
    ensures !IsLower(c) ==> r == c
  {
    if IsLower(c) then (c as int - 32) as char else c
  }

  /** ASCII `toLowerCase` of one character. */
  function LowerChar(c: char): (r: char)
    ensures !IsUpper(r)
    ensures IsUpper(c) ==> IsLower(r) && r as int == c as int + 32
    ensures !IsUpper(c) ==> r == c
  {
    if IsUpper(c) then (c as int + 32) as char else c
  }

  /** `s.toUpperCase()`: every character mapped on its own. */
  function UpperCase(s: string): (r: string)
    ensures |r| == |s|
    ensures forall i :: 0 <= i < |s| ==> r[i] == UpperChar(s[i])
    ensures forall i :: 0 <= i < |r| ==> !IsLower(r[i])
  {
    if s == [] then [] else [UpperChar(s[0])] + UpperCase(s[1..])
  }

  /** `s.toLowerCase()`: every character mapped on its own. */
  function LowerCase(s: string): (r: string)
    ensures |r| == |s|
    ensures forall i :: 0 <= i < |s| ==> r[i] == LowerChar(s[i])
    ensures forall i :: 0 <= i < |r| ==> !IsUpper(r[i])
  {
    if s == [] then [] else [LowerChar(s[0])] + LowerCase(s[1..])
  }

  /**
   * `capitalizeFirstLetter`: `s.charAt(0).toUpperCase() + s.slice(1)`.
   * On the empty string `charAt(0)` is the empty string, so the result is empty.
   */
  function CapitalizeFirstLetter(s: string): (r: string)
    ensures |r| == |s|
    ensures s == [] ==> r == []
    ensures s != [] ==> r[0] == UpperChar(s[0]) && r[1..] == s[1..]
  {
    if s == [] then [] else [UpperChar(s[0])] + s[1..]
  }

  /**
   * The class-name stem the CRUD and root-module templates compute inline:
   * `name.charAt(0).toUpperCase() + name.slice(1).toLowerCase()`.
   */
  function TitleCase(s: string): (r: string)
    ensures |r| == |s|
    ensures r == [] <==> s == []
    ensures s != [] ==> r[0] == UpperChar(s[0]) && r[1..] == LowerCase(s[1..])
  {
    if s == [] then [] else [UpperChar(s[0])] + LowerCase(s[1..])
  }

  lemma {:induction false} UpperCaseIdempotent(s: string)
    ensures UpperCase(UpperCase(s)) == UpperCase(s)
  {
    var u := UpperCase(s);
    assert forall i :: 0 <= i < |u| ==> UpperChar(u[i]) == u[i];
  }

  lemma {:induction false} LowerCaseIdempotent(s: string)
    ensures LowerCase(LowerCase(s)) == LowerCase(s)
  {
    var l := LowerCase(s);
    assert forall i :: 0 <= i < |l| ==> LowerChar(l[i]) == l[i];
  }

  /** Lower-casing forgets any earlier case mapping of the same text. */
  lemma {:induction false} LowerCaseIgnoresCase(s: string)
    ensures LowerCase(UpperCase(s)) == LowerCase(s)
    ensures LowerCase(CapitalizeFirstLetter(s)) == LowerCase(s)
    ensures LowerCase(TitleCase(s)) == LowerCase(s)
  {
    var u, c, t := UpperCase(s), CapitalizeFirstLetter(s), TitleCase(s);
    assert forall i :: 0 <= i < |s| ==> LowerChar(u[i]) == LowerChar(s[i]);
    assert forall i :: 0 <= i < |s| ==> LowerChar(c[i]) == LowerChar(s[i]) by {
      forall i | 0 <= i < |s| ensures LowerChar(c[i]) == LowerChar(s[i]) {
        if i > 0 { assert c[i] == c[1..][i - 1]; }
      }
    }
    assert forall i :: 0 <= i < |s| ==> LowerChar(t[i]) == LowerChar(s[i]) by {
      forall i | 0 <= i < |s| ensures LowerChar(t[i]) == LowerChar(s[i]) {
        if i > 0 { assert t[i] == t[1..][i - 1]; }
      }
    }
  }

  /** Upper-casing forgets any earlier case mapping of the same text. */
  lemma {:induction false} UpperCaseIgnoresCase(s: string)
    ensures UpperCase(LowerCase(s)) == UpperCase(s)
    ensures UpperCase(TitleCase(s)) == UpperCase(s)
  {
    var l, t := LowerCase(s), TitleCase(s);
    assert forall i :: 0 <= i < |s| ==> UpperChar(l[i]) == UpperChar(s[i]);
    assert forall i :: 0 <= i < |s| ==> UpperChar(t[i]) == UpperChar(s[i]) by {
      forall i | 0 <= i < |s| ensures UpperChar(t[i]) == UpperChar(s[i]) {
        if i > 0 { assert t[i] == t[1..][i - 1]; }
      }
    }
  }

  /**
   * The class-name stem depends on the name only up to case: "dog", "DOG"
   * and "dOg" all give "Dog".
   */
  lemma {:induction false} TitleCaseIgnoresCase(s: string)
    ensures TitleCase(UpperCase(s)) == TitleCase(s)
    ensures TitleCase(LowerCase(s)) == TitleCase(s)
    ensures TitleCase(TitleCase(s)) == TitleCase(s)
  {
    if s != [] {
      var u, l, t := UpperCase(s), LowerCase(s), TitleCase(s);
      assert u[1..] == UpperCase(s[1..]);
      assert l[1..] == LowerCase(s[1..]);
      LowerCaseIgnoresCase(s[1..]);
      LowerCaseIdempotent(s[1..]);
      assert UpperChar(u[0]) == UpperChar(s[0]);
      assert UpperChar(l[0]) == UpperChar(s[0]);
      assert UpperChar(t[0]) == UpperChar(s[0]);
    }
  }

  /** Lower-casing leaves a text alone exactly when it has no upper-case ASCII letter. */
  lemma LowerCaseFixedIff(t: string)
    ensures LowerCase(t) == t <==> forall j :: 0 <= j < |t| ==> !IsUpper(t[j])
  {
    if forall j :: 0 <= j < |t| ==> !IsUpper(t[j]) {
      assert forall j :: 0 <= j < |t| ==> LowerCase(t)[j] == t[j];
    }
  }

  /**
   * The two capitalisation rules of the generator agree exactly when the
   * tail of the name has no upper-case ASCII letter.
   */
  lemma {:induction false} TitleCaseIsCapitalizeIff(s: string)
    ensures TitleCase(s) == CapitalizeFirstLetter(s)
            <==> forall i :: 1 <= i < |s| ==> !IsUpper(s[i])
  {
    if s != [] {
      var tail := s[1..];
      assert TitleCase(s) == CapitalizeFirstLetter(s) <==> LowerCase(tail) == tail by {
        if TitleCase(s) == CapitalizeFirstLetter(s) {
          assert TitleCase(s)[1..] == CapitalizeFirstLetter(s)[1..];
        }
      }
      LowerCaseFixedIff(tail);
      assert (forall j :: 0 <= j < |tail| ==> !IsUpper(tail[j]))
             <==> (forall i :: 1 <= i < |s| ==> !IsUpper(s[i])) by {
        assert forall i :: 1 <= i < |s| ==> s[i] == tail[i - 1];
      }
    }
  }

  lemma ExampleTeste()
    ensures TitleCase("teste") == "Teste"
  {
    assert LowerCase("este") == "este";
  }

  lemma ExampleDog()
    ensures UpperCase("dog") == "DOG"
  {
  }

  /** Where the two rules part: a name with an inner capital. */
  lemma ExampleInnerCapital()
    ensures TitleCase("dogHouse") == "Doghouse"
    ensures CapitalizeFirstLetter("dogHouse") == "DogHouse"
  {
    var h := LowerCase("House");
    assert h[0] == 'h';
    assert h == "house";
    assert LowerCase("ogHouse") == "og" + h;
  }
}

/**
  The artist-name normaliser: lowercase, then delete punctuation, then delete spaces.
  The result is the token the lyrics site uses in its artist URLs.
  Lowercasing is restricted to ASCII; every other character passes through unchanged.
*/
module NameFormat {

  predicate IsUpper(c: char) { 'A' <= c <= 'Z' }

  /** Python's string.punctuation: the 32 printable ASCII characters that are not letters, digits or space. */
  predicate IsPunctuation(c: char) {
    ('!' <= c <= '/') || (':' <= c <= '@') || ('[' <= c <= '`') || ('{' <= c <= '~')
  }

  /** A character the normaliser deletes once the name is lowercased. Tabs and newlines are not among them. */
  predicate Deleted(c: char) { IsPunctuation(c) || c == ' ' }

  /** A capital becomes its lowercase counterpart; every other character is left as it is. */
  function LowerChar(c: char): (d: char)
    ensures !IsUpper(d)
    ensures IsUpper(c) ==> 'a' <= d <= 'z' && d as int - 'a' as int == c as int - 'A' as int
    ensures !IsUpper(c) ==> d == c
  {
    if IsUpper(c) then (c as int - 'A' as int + 'a' as int) as char else c
  }

  function UpperChar(c: char): (d: char)
    ensures LowerChar(d) == LowerChar(c)
  {
    if 'a' <= c <= 'z' then (c as int - 'a' as int + 'A' as int) as char else c
  }

  function Lower(s: string): string {
    seq(|s|, i requires 0 <= i < |s| => LowerChar(s[i]))
  }

  function Upper(s: string): string {
    seq(|s|, i requires 0 <= i < |s| => UpperChar(s[i]))
  }

  /** Deletes every punctuation character (the translate step). */
  function RemovePunctuation(s: string): (r: string)
    ensures forall c :: c in r ==> c in s && !IsPunctuation(c)
    ensures forall c :: c in s && !IsPunctuation(c) ==> c in r
    ensures |r| <= |s|
  {
    if s == [] then []
    else
      assert forall c :: c in s && c != s[0] ==> c in s[1..] by {
        assert s == [s[0]] + s[1..];
      }
      (if IsPunctuation(s[0]) then [] else [s[0]]) + RemovePunctuation(s[1..])
  }

  /** Deletes every ' ' (the replace step); other whitespace stays. */
  function RemoveSpaces(s: string): (r: string)
    ensures forall c :: c in r ==> c in s && c != ' '
    ensures forall c :: c in s && c != ' ' ==> c in r
    ensures |r| <= |s|
  {
    if s == [] then []
    else
      assert forall c :: c in s && c != s[0] ==> c in s[1..] by {
        assert s == [s[0]] + s[1..];
      }
      (if s[0] == ' ' then [] else [s[0]]) + RemoveSpaces(s[1..])
  }

  /** format_name: the output holds no ASCII capital, no punctuation and no space. */
  function FormatName(bandName: string): (token: string)
    ensures forall c :: c in token ==> !IsUpper(c)
    ensures forall c :: c in token ==> !IsPunctuation(c)
    ensures forall c :: c in token ==> c != ' '
  {
    RemoveSpaces(RemovePunctuation(Lower(bandName)))
  }

  /**
    Reference definition of the normaliser: one left-to-right pass that lowercases each
    character and keeps it, in order, unless it is punctuation or a space.
  */
  function Normalise(s: string): string {
    if s == [] then []
    else (if Deleted(LowerChar(s[0])) then [] else [LowerChar(s[0])]) + Normalise(s[1..])
  }

  lemma RemovePunctuationCons(c: char, s: string)
    ensures RemovePunctuation([c] + s) == (if IsPunctuation(c) then [] else [c]) + RemovePunctuation(s)
  {
    assert ([c] + s)[1..] == s;
  }

  /** The first character of a nonempty left operand is handled the same way with or without a right operand. */
  lemma RemovePunctuationHead(a: string, b: string)
    requires a != []
    ensures RemovePunctuation(a + b) == (if IsPunctuation(a[0]) then [] else [a[0]]) + RemovePunctuation(a[1..] + b)
    ensures RemovePunctuation(a) == (if IsPunctuation(a[0]) then [] else [a[0]]) + RemovePunctuation(a[1..])
  {
    assert a + b == [a[0]] + (a[1..] + b);
    RemovePunctuationCons(a[0], a[1..] + b);
    assert a == [a[0]] + a[1..];
    RemovePunctuationCons(a[0], a[1..]);
  }

  /** Re-associating a kept head: h + x with x == y + z is (h + y) + z. */
  lemma HeadStep(p: string, q: string, h: string, x: string, y: string, z: string)
    requires p == h + x && q == h + y && x == y + z
    ensures p == q + z
  {
    assert h + (y + z) == (h + y) + z;
  }

  /** Deleting punctuation works character by character: it distributes over concatenation. */
  lemma {:induction false} RemovePunctuationAppend(a: string, b: string)
    ensures RemovePunctuation(a + b) == RemovePunctuation(a) + RemovePunctuation(b)
  {
    if a == [] {
      assert a + b == b;
    } else {
      var h := if IsPunctuation(a[0]) then [] else [a[0]];
      RemovePunctuationHead(a, b);
      RemovePunctuationAppend(a[1..], b);
      HeadStep(RemovePunctuation(a + b), RemovePunctuation(a), h,
        RemovePunctuation(a[1..] + b), RemovePunctuation(a[1..]), RemovePunctuation(b));
    }
  }

  lemma RemoveSpacesCons(c: char, s: string)
    ensures RemoveSpaces([c] + s) == (if c == ' ' then [] else [c]) + RemoveSpaces(s)
  {
    assert ([c] + s)[1..] == s;
  }

  lemma RemoveSpacesHead(a: string, b: string)
    requires a != []
    ensures RemoveSpaces(a + b) == (if a[0] == ' ' then [] else [a[0]]) + RemoveSpaces(a[1..] + b)
    ensures RemoveSpaces(a) == (if a[0] == ' ' then [] else [a[0]]) + RemoveSpaces(a[1..])
  {
    assert a + b == [a[0]] + (a[1..] + b);
    RemoveSpacesCons(a[0], a[1..] + b);
    assert a == [a[0]] + a[1..];
    RemoveSpacesCons(a[0], a[1..]);
  }

  /** Deleting spaces distributes over concatenation likewise. */
  lemma {:induction false} RemoveSpacesAppend(a: string, b: string)
    ensures RemoveSpaces(a + b) == RemoveSpaces(a) + RemoveSpaces(b)
  {
    if a == [] {
      assert a + b == b;
    } else {
      var h := if a[0] == ' ' then [] else [a[0]];
      RemoveSpacesHead(a, b);
      RemoveSpacesAppend(a[1..], b);
      HeadStep(RemoveSpaces(a + b), RemoveSpaces(a), h,
        RemoveSpaces(a[1..] + b), RemoveSpaces(a[1..]), RemoveSpaces(b));
    }
  }

  /** The three chained steps delete exactly the punctuation and spaces and keep everything else in order. */
  lemma {:induction false} FormatNameIsSinglePass(s: string)
    ensures FormatName(s) == Normalise(s)
  {
    if s != [] {
      FormatNameIsSinglePass(s[1..]);
      var l := Lower(s);
      assert l[0] == LowerChar(s[0]);
      assert l[1..] == Lower(s[1..]);
      var h := if IsPunctuation(l[0]) then [] else [l[0]];
      assert RemovePunctuation(l) == h + RemovePunctuation(Lower(s[1..]));
      RemoveSpacesAppend(h, RemovePunctuation(Lower(s[1..])));
    }
  }

  /** A string that is already a token is left as it is. */
  lemma {:induction false} NormaliseKeepsTokens(t: string)
    requires forall c :: c in t ==> !IsUpper(c) && !Deleted(c)
    ensures Normalise(t) == t
  {
    if t != [] {
      assert t[0] in t;
      assert forall c :: c in t[1..] ==> c in t;
      NormaliseKeepsTokens(t[1..]);
    }
  }

  lemma FormatNameIdempotent(s: string)
    ensures FormatName(FormatName(s)) == FormatName(s)
  {
    var t := FormatName(s);
    FormatNameIsSinglePass(t);
    NormaliseKeepsTokens(t);
  }

  /** Upper- and lower-cased variants of an ASCII name give the same token. */
  lemma FormatNameIgnoresCase(s: string)
    ensures FormatName(Upper(s)) == FormatName(s)
    ensures FormatName(Lower(s)) == FormatName(s)
  {
    assert Lower(Upper(s)) == Lower(s);
    assert Lower(Lower(s)) == Lower(s);
  }

  /** The token is empty exactly when every character of the name is deleted. */
  lemma {:induction false} NormaliseEmptyIff(s: string)
    ensures Normalise(s) == [] <==> forall i :: 0 <= i < |s| ==> Deleted(LowerChar(s[i]))
  {
    if s != [] {
      NormaliseEmptyIff(s[1..]);
      assert forall i :: 1 <= i < |s| ==> s[i] == s[1..][i - 1];
    }
  }

  lemma FormatNameEmptyIff(s: string)
    ensures FormatName(s) == [] <==> forall i :: 0 <= i < |s| ==> Deleted(LowerChar(s[i]))
  {
    FormatNameIsSinglePass(s);
    NormaliseEmptyIff(s);
  }

  lemma {:induction false} NormaliseAppend(a: string, b: string)
    ensures Normalise(a + b) == Normalise(a) + Normalise(b)
  {
    if a == [] {
      assert a + b == b;
    } else {
      assert (a + b)[0] == a[0];
      assert (a + b)[1..] == a[1..] + b;
      NormaliseAppend(a[1..], b);
    }
  }

  /** A name split into four parts normalises part by part. */
  lemma NormaliseFourParts(a: string, b: string, c: string, d: string)
    ensures Normalise(a + b + c + d) == Normalise(a) + Normalise(b) + Normalise(c) + Normalise(d)
  {
    NormaliseAppend(a + b + c, d);
    NormaliseAppend(a + b, c);
    NormaliseAppend(a, b);
  }

  /** The cases of the repository's own test table. */
  lemma FormatNameSpacesExample()
    ensures FormatName("") == ""
    ensures FormatName("   ") == ""
  {
    FormatNameEmptyIff("   ");
  }

  lemma FormatNamePunctuationExample(name: string)
    requires name == "!@#$%^&*()_+-=}{][<>?.,/|~`"
    ensures FormatName(name) == ""
  {
    FormatNameEmptyIff(name);
  }

  /** One character of a name: kept lowercased unless it is punctuation or a space. */
  lemma NormaliseCons(c: char, s: string)
    ensures Normalise([c] + s) == (if Deleted(LowerChar(c)) then [] else [LowerChar(c)]) + Normalise(s)
  {
    assert ([c] + s)[1..] == s;
  }

  lemma PanicWord()
    ensures Normalise("Panic!") == "panic"
  {
    NormaliseCons('!', []);
    NormaliseCons('c', "!");
    NormaliseCons('i', "c!");
    NormaliseCons('n', "ic!");
    NormaliseCons('a', "nic!");
    NormaliseCons('P', "anic!");
  }

  lemma AtWord()
    ensures Normalise(" At") == "at"
  {
    NormaliseCons('t', []);
    NormaliseCons('A', "t");
    NormaliseCons(' ', "At");
  }

  lemma TheWord()
    ensures Normalise(" The") == "the"
  {
    NormaliseCons('e', []);
    NormaliseCons('h', "e");
    NormaliseCons('T', "he");
    NormaliseCons(' ', "The");
  }

  lemma DiscoWord()
    ensures Normalise(" Disco") == "disco"
  {
    NormaliseCons('o', []);
    NormaliseCons('c', "o");
    NormaliseCons('s', "co");
    NormaliseCons('i', "sco");
    NormaliseCons('D', "isco");
    NormaliseCons(' ', "Disco");
  }

  /** The four expected tokens run together. */
  lemma PanicConcat()
    ensures "panic" + "at" + "the" + "disco" == "panicatthedisco"
  {
  }

  /** A name made of four parts whose tokens are "panic", "at", "the" and "disco". */
  lemma PanicAtTheDisco(name: string, a: string, b: string, c: string, d: string)
    requires name == a + b + c + d
    requires Normalise(a) == "panic" && Normalise(b) == "at" && Normalise(c) == "the" && Normalise(d) == "disco"
    ensures FormatName(name) == "panicatthedisco"
  {
    NormaliseFourParts(a, b, c, d);
    PanicConcat();
    FormatNameIsSinglePass(name);
  }

  lemma FormatNamePanicExample()
    ensures FormatName("Panic! At The Disco") == "panicatthedisco"
  {
    var name := "Panic! At The Disco";
    PanicWord();
    AtWord();
    TheWord();
    DiscoWord();
    assert name == "Panic!" + " At" + " The" + " Disco";
    PanicAtTheDisco(name, "Panic!", " At", " The", " Disco");
  }
}

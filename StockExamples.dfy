/** Worked inputs for the keyword resolver: the priority between lists,
    substring (not word) matching, and the fallback. */
module StockExamples {

  import opened Text
  import opened StockData

  /** The empty text has no keyword and resolves to GENERAL. */
  lemma EmptyIsGeneral()
    ensures Categorize(ToLower("")) == General
  {
    NoHeadCharIsGeneral("");
  }

  /** "men" is tested before "hair", so "haircut for men" resolves to BARBER. */
  lemma HaircutForMenIsBarber()
    ensures Categorize(ToLower("haircut for men")) == Barber
  {
    HaircutForMenIsBarberFor("haircut for men");
  }

  lemma HaircutForMenIsBarberFor(t: string)
    requires t == "haircut for men"
    ensures Categorize(ToLower(t)) == Barber
  {
    ToLowerOfLower(t);
    HaircutNotNails(t);
    assert SliceAt(t, "men", 12);
    IncludesIffOccurs(t, "men");
  }

  lemma HaircutNotNails(t: string)
    requires t == "haircut for men"
    ensures !NailsTest(t)
  {
    AbsentCharNotIncluded(t, "nail", 3);
    AbsentCharNotIncluded(t, "pedicure", 0);
    AbsentCharNotIncluded(t, "polish", 0);
    AbsentCharNotIncluded(t, "gel", 0);
    AbsentCharNotIncluded(t, "acrylic", 3);
    HaircutLacksManicure();
  }

  lemma HaircutLacksManicure()
    ensures !Includes("haircut for men", "manicure")
  {
    assert !IncludesFrom("haircut for men", "manicure", 7);
    assert !IncludesFrom("haircut for men", "manicure", 6);
    assert !IncludesFrom("haircut for men", "manicure", 5);
    assert !IncludesFrom("haircut for men", "manicure", 4);
    assert !IncludesFrom("haircut for men", "manicure", 3);
    assert !IncludesFrom("haircut for men", "manicure", 2);
    assert !IncludesFrom("haircut for men", "manicure", 1);
    assert !IncludesFrom("haircut for men", "manicure", 0);
  }

  /** Matching is on substrings: "men" inside "women" and "comment" counts. */
  lemma SubstringMenIsBarber()
    ensures Categorize(ToLower("women")) == Barber
    ensures Categorize(ToLower("comment")) == Barber
  {
    ToLowerOfLower("women");
    ToLowerOfLower("comment");
    assert SliceAt("women", "men", 2);
    IncludesIffOccurs("women", "men");
    assert SliceAt("comment", "men", 3);
    IncludesIffOccurs("comment", "men");
  }

  /** A keyword of `ks` occurs in none of four words, and no keyword holds a
      space, so none occurs in the words joined by single spaces. */
  lemma NoKeywordInFourWords(a: string, b: string, c: string, d: string, ks: seq<string>)
    requires forall k :: k in ks ==> ' ' !in k
    requires forall k :: k in ks ==> !Includes(a, k) && !Includes(b, k)
    requires forall k :: k in ks ==> !Includes(c, k) && !Includes(d, k)
    ensures !AnyIncluded(a + " " + b + " " + c + " " + d, ks)
  {
    forall k | k in ks ensures !Includes(a + " " + b + " " + c + " " + d, k) {
      NotIncludedAcrossSpace(a, b, k);
      NotIncludedAcrossSpace(a + " " + b, c, k);
      NotIncludedAcrossSpace(a + " " + b + " " + c, d, k);
    }
  }

  lemma BalayageText()
    ensures "fresh balayage and blowout" == "fresh" + " " + "balayage" + " " + "and" + " " + "blowout"
    ensures "fresh balayage and blowout" == "fresh " + "balayage" + " and blowout"
  {
  }

  /** "balayage" is a HAIR keyword; the text holds no NAILS or BARBER keyword
      even though "gel", "barber", "fade" and "beard" are spelled with its
      letters. */
  lemma BalayageIsHair()
    ensures Categorize(ToLower("fresh balayage and blowout")) == Hair
  {
    var t := "fresh balayage and blowout";
    BalayageText();
    ToLowerOfLower(t);
    SingleWordsNails();
    FirstWordsLackNails();
    LastWordsLackNails();
    NoKeywordInFourWords("fresh", "balayage", "and", "blowout", NailsKeywords);
    SingleWordsBarber();
    FirstWordsLackBarber();
    LastWordsLackBarber();
    NoKeywordInFourWords("fresh", "balayage", "and", "blowout", BarberKeywords);
    NailsTestIsKeywordList(t);
    BarberTestIsKeywordList(t);
    assert Includes("balayage", "balayage");
    IncludesInfix("fresh ", "balayage", " and blowout", "balayage");
  }

  lemma SingleWordsNails()
    ensures forall k :: k in NailsKeywords ==> ' ' !in k
  {
  }

  lemma FirstWordsLackNails()
    ensures forall k :: k in NailsKeywords ==> !Includes("fresh", k) && !Includes("balayage", k)
  {
  }

  lemma LastWordsLackNails()
    ensures forall k :: k in NailsKeywords ==> !Includes("and", k) && !Includes("blowout", k)
  {
  }

  lemma SingleWordsBarber()
    ensures forall k :: k in BarberKeywords ==> ' ' !in k
  {
  }

  lemma FirstWordsLackBarber()
    ensures forall k :: k in BarberKeywords ==> !Includes("fresh", k) && !Includes("balayage", k)
  {
  }

  lemma LastWordsLackBarber()
    ensures forall k :: k in BarberKeywords ==> !Includes("and", k) && !Includes("blowout", k)
  {
  }

  /** "spa" resolves to the SPA collection. */
  lemma SpaIsSpa()
    ensures Categorize(ToLower("spa")) == Spa
  {
    ToLowerOfLower("spa");
    assert SliceAt("spa", "spa", 0);
    IncludesIffOccurs("spa", "spa");
  }

  /** A text that holds no first letter of any keyword resolves to GENERAL. */
  lemma NoKeywordIsGeneral()
    ensures Categorize(ToLower("xyz123")) == General
  {
    NoHeadCharIsGeneral("xyz123");
  }

  /** The first characters of all keywords of the six lists. */
  const KeywordHeads: string := "nmpgabfstrhcdlwe"

  /** A lower-case text without any keyword's first character resolves to
      GENERAL. */
  lemma NoHeadCharIsGeneral(t: string)
    requires forall c :: c in t ==> !IsUpper(c) && c !in KeywordHeads
    ensures Categorize(ToLower(t)) == General
  {
    ToLowerOfLower(t);
    forall c | c in Priority ensures !AnyIncluded(t, Keywords(c)) {
      HeadsListed(c);
      HeadsAbsent(t, Keywords(c));
    }
    GeneralIffNoKeyword(t);
  }

  lemma HeadsListed(c: Category)
    ensures forall k :: k in Keywords(c) ==> |k| > 0 && k[0] in KeywordHeads
  {
    match c
    case Nails =>
    case Barber =>
    case Hair =>
    case Spa =>
    case Tutorial =>
    case Product =>
    case General =>
  }

  /** No keyword whose first character is missing from `t` is included. */
  lemma HeadsAbsent(t: string, ks: seq<string>)
    requires forall k :: k in ks ==> |k| > 0 && k[0] in KeywordHeads
    requires forall c :: c in t ==> c !in KeywordHeads
    ensures !AnyIncluded(t, ks)
  {
    forall k | k in ks ensures !Includes(t, k) {
      AbsentCharNotIncluded(t, k, 0);
    }
  }
}

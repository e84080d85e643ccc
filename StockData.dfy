/** The curated stock library and the keyword resolver that picks one of its
    seven collections for a free-text description. */
module StockData {

  import opened Text
  import opened Types

  /** The seven collections of the library. */
  datatype Category = Nails | Barber | Hair | Spa | Tutorial | Product | General

  /** A stock picture has the same id, prompt and url fields as a visual. */
  type StockImage = Visual

  /** Every stock url is an Unsplash photo at width 800 and quality 80. */
  function UnsplashUrl(photo: string): string
  {
    "https://images.unsplash.com/photo-" + photo + "?w=800&q=80"
  }

  /** A stock picture given by its id, its Unsplash photo id and its prompt. */
  function Img(id: string, photo: string, prompt: string): StockImage
  {
    Visual(id, prompt, UnsplashUrl(photo))
  }

  // The authored collections, in authored order.

  const NailsImages: seq<StockImage> := [
    Img("n1", "1604654894610-df63bc536371", "Close up of gel manicure"),
    Img("n2", "1632973547304-46e75e927088", "Aesthetic nail art details"),
    Img("n3", "1519014816548-bf5fe059e98b", "Woman getting manicure in salon"),
    Img("n4", "1522337660859-02fbefca4702", "Pastel nail polish bottles"),
    Img("n5", "1599693929330-919691bb947c", "Acrylic nails close up"),
    Img("n6", "1505250056177-db7f06ba4b02", "Pedicure setup with flowers")]

  const BarberImages: seq<StockImage> := [
    Img("b1", "1585747860715-2ba37e788b70", "Barber giving a fade haircut"),
    Img("b2", "1621605815971-fbc98d665033", "Beard trim with hot towel"),
    Img("b3", "1503951914875-befbb7135952", "Vintage barbershop interior"),
    Img("b4", "1599351431202-6e0c06e76553", "Barber tools and clippers"),
    Img("b5", "1532710093739-9470acff878f", "Man getting haircut profile view"),
    Img("b6", "1512690459411-b9245aed6191", "Grooming products for men"),
    Img("b7", "1622286342621-4bd786c2447c", "Close up of shaver and foam")]

  const HairImages: seq<StockImage> := [
    Img("h1", "1560869713-7d0a29430803", "Professional hair coloring process"),
    Img("h2", "1562322140-8baeececf3df", "Stylist blow drying hair"),
    Img("h3", "1595476108010-b4d1f102b1b1", "Braided hair styling"),
    Img("h4", "1522337360788-8b13dee7a37e", "Modern hair salon interior"),
    Img("h5", "1580618672591-eb180b1a973f", "Curly hair styling"),
    Img("h6", "1521590832169-dca21b3346b9", "Salon reception desk"),
    Img("h7", "1634449571010-02389ed0f9b0", "Diverse hair textures model")]

  const SpaImages: seq<StockImage> := [
    Img("s1", "1570172619644-dfd03ed5d881", "Woman enjoying a facial mask"),
    Img("s2", "1600334089648-b0d9d3028eb2", "Relaxing spa massage setting"),
    Img("s3", "1544161515-4ab6ce6db874", "Skincare products and towel"),
    Img("s4", "1515377905703-c4788e51af93", "Zen stones and flower"),
    Img("s5", "1512290923902-8a9f81dc236c", "Applying serum to face")]

  const TutorialImages: seq<StockImage> := [
    Img("t1", "1516975080664-ed2fc6a32937", "Makeup tutorial setup with ring light"),
    Img("t2", "1487412947147-5cebf100ffc2", "Hands styling hair close up"),
    Img("t3", "1556761175-5973dc0f32e7", "Business owner recording video"),
    Img("t4", "1512413914633-b5043f4041ea", "Flatlay of tools for tutorial")]

  const ProductImages: seq<StockImage> := [
    Img("p1", "1620916566398-39f1143ab7be", "Minimal skincare bottle serum"),
    Img("p2", "1571781535021-7b08dd2b7252", "Shelf with beauty products"),
    Img("p3", "1616683693504-3ea7e9ad6fec", "Aesthetic product packaging"),
    Img("p4", "1556228720-1957be83f360", "Shopping bag and items"),
    Img("p5", "1556228578-0d85b1a4d571", "Shampoo and conditioner bottles"),
    Img("p6", "1585232561025-535b2084df71", "Hair care products on shelf"),
    Img("p7", "1608248597279-f99d160bfbc8", "Salon retail display shelves"),
    Img("p8", "1592910147752-5e08890c9972", "Luxury conditioner bottle")]

  const GeneralImages: seq<StockImage> := [
    Img("g1", "1521590832169-dca21b3346b9", "Modern small business reception"),
    Img("g2", "1497366216548-37526070297c", "Clean aesthetic workspace"),
    Img("g3", "1556761175-5973dc0f32e7", "Handshake transaction success"),
    Img("g4", "1493612276216-9c78370631f6", "Coffee and planning notebook")]

  function Library(c: Category): (r: seq<StockImage>)
    ensures |r| > 0
  {
    match c
    case Nails => NailsImages
    case Barber => BarberImages
    case Hair => HairImages
    case Spa => SpaImages
    case Tutorial => TutorialImages
    case Product => ProductImages
    case General => GeneralImages
  }

  // ---------------------------------------------------------------------
  // The keyword lists, one per category except GENERAL

  const NailsKeywords: seq<string> := ["nail", "manicure", "pedicure", "polish", "gel", "acrylic"]
  const BarberKeywords: seq<string> :=
    ["barber", "fade", "shave", "beard", "men", "gentleman", "trim", "grooming", "razor"]
  const HairKeywords: seq<string> :=
    ["hair", "cut", "blow", "color", "dye", "blonde", "brunette", "balayage", "style", "salon"]
  const SpaKeywords: seq<string> :=
    ["spa", "facial", "skin", "mask", "massage", "relax", "wax", "botox", "esthetician"]
  const TutorialKeywords: seq<string> :=
    ["tutorial", "how to", "process", "teach", "learn", "behind the scenes", "bts"]
  const ProductKeywords: seq<string> :=
    ["product", "serum", "shampoo", "buy", "sale", "shelf", "retail", "conditioner", "lotion", "shop", "store"]

  /** The categories in the order they are tried. */
  const Priority: seq<Category> := [Nails, Barber, Hair, Spa, Tutorial, Product]

  function Keywords(c: Category): seq<string>
  {
    match c
    case Nails => NailsKeywords
    case Barber => BarberKeywords
    case Hair => HairKeywords
    case Spa => SpaKeywords
    case Tutorial => TutorialKeywords
    case Product => ProductKeywords
    case General => []
  }

  /** Some keyword of `ks` is a substring of `t`. */
  predicate AnyIncluded(t: string, ks: seq<string>)
  {
    exists k :: k in ks && Includes(t, k)
  }

  // ---------------------------------------------------------------------
  // The resolver

  /** The `||` chain of `includes` tests for NAILS. */
  predicate NailsTest(t: string)
  {
    Includes(t, "nail") || Includes(t, "manicure") || Includes(t, "pedicure")
    || Includes(t, "polish") || Includes(t, "gel") || Includes(t, "acrylic")
  }

  /** The `||` chain of `includes` tests for BARBER. */
  predicate BarberTest(t: string)
  {
    Includes(t, "barber") || Includes(t, "fade") || Includes(t, "shave") || Includes(t, "beard")
    || Includes(t, "men") || Includes(t, "gentleman") || Includes(t, "trim")
    || Includes(t, "grooming") || Includes(t, "razor")
  }

  /** The `||` chain of `includes` tests for HAIR. */
  predicate HairTest(t: string)
  {
    Includes(t, "hair") || Includes(t, "cut") || Includes(t, "blow") || Includes(t, "color")
    || Includes(t, "dye") || Includes(t, "blonde") || Includes(t, "brunette")
    || Includes(t, "balayage") || Includes(t, "style") || Includes(t, "salon")
  }

  /** The `||` chain of `includes` tests for SPA. */
  predicate SpaTest(t: string)
  {
    Includes(t, "spa") || Includes(t, "facial") || Includes(t, "skin") || Includes(t, "mask")
    || Includes(t, "massage") || Includes(t, "relax") || Includes(t, "wax")
    || Includes(t, "botox") || Includes(t, "esthetician")
  }

  /** The `||` chain of `includes` tests for TUTORIAL. */
  predicate TutorialTest(t: string)
  {
    Includes(t, "tutorial") || Includes(t, "how to") || Includes(t, "process")
    || Includes(t, "teach") || Includes(t, "learn") || Includes(t, "behind the scenes")
    || Includes(t, "bts")
  }

  /** The `||` chain of `includes` tests for PRODUCT. */
  predicate ProductTest(t: string)
  {
    Includes(t, "product") || Includes(t, "serum") || Includes(t, "shampoo")
    || Includes(t, "buy") || Includes(t, "sale") || Includes(t, "shelf")
    || Includes(t, "retail") || Includes(t, "conditioner") || Includes(t, "lotion")
    || Includes(t, "shop") || Includes(t, "store")
  }

  /** The chain of tests on the lower-cased text, first hit wins. */
  function Categorize(t: string): (r: Category)
    ensures r == Nails <==> NailsTest(t)
    ensures r == General ==> !NailsTest(t) && !BarberTest(t) && !HairTest(t) && !SpaTest(t)
                             && !TutorialTest(t) && !ProductTest(t)
  {
    if NailsTest(t) then Nails
    else if BarberTest(t) then Barber
    else if HairTest(t) then Hair
    else if SpaTest(t) then Spa
    else if TutorialTest(t) then Tutorial
    else if ProductTest(t) then Product
    else General
  }

  /** `getSmartImages`: the collection for the lower-cased text. */
  function SmartImages(text: string): (r: seq<StockImage>)
    ensures |r| > 0
    ensures exists c: Category :: r == Library(c)
  {
    Library(Categorize(ToLower(text)))
  }

  /** The reference resolver: the first category of `cs` one of whose keywords
      the text contains, or GENERAL. */
  function FirstMatching(t: string, cs: seq<Category>): Category
  {
    if cs == [] then General
    else if AnyIncluded(t, Keywords(cs[0])) then cs[0]
    else FirstMatching(t, cs[1..])
  }

  // ---------------------------------------------------------------------
  // Properties

  lemma NailsTestIsKeywordList(t: string)
    ensures NailsTest(t) <==> AnyIncluded(t, NailsKeywords)
  {
    if Includes(t, "nail") { assert "nail" in NailsKeywords; }
    if Includes(t, "manicure") { assert "manicure" in NailsKeywords; }
    if Includes(t, "pedicure") { assert "pedicure" in NailsKeywords; }
    if Includes(t, "polish") { assert "polish" in NailsKeywords; }
    if Includes(t, "gel") { assert "gel" in NailsKeywords; }
    if Includes(t, "acrylic") { assert "acrylic" in NailsKeywords; }
  }

  lemma BarberTestIsKeywordList(t: string)
    ensures BarberTest(t) <==> AnyIncluded(t, BarberKeywords)
  {
    if Includes(t, "barber") { assert "barber" in BarberKeywords; }
    if Includes(t, "fade") { assert "fade" in BarberKeywords; }
    if Includes(t, "shave") { assert "shave" in BarberKeywords; }
    if Includes(t, "beard") { assert "beard" in BarberKeywords; }
    if Includes(t, "men") { assert "men" in BarberKeywords; }
    if Includes(t, "gentleman") { assert "gentleman" in BarberKeywords; }
    if Includes(t, "trim") { assert "trim" in BarberKeywords; }
    if Includes(t, "grooming") { assert "grooming" in BarberKeywords; }
    if Includes(t, "razor") { assert "razor" in BarberKeywords; }
  }

  lemma HairTestIsKeywordList(t: string)
    ensures HairTest(t) <==> AnyIncluded(t, HairKeywords)
  {
    if Includes(t, "hair") { assert "hair" in HairKeywords; }
    if Includes(t, "cut") { assert "cut" in HairKeywords; }
    if Includes(t, "blow") { assert "blow" in HairKeywords; }
    if Includes(t, "color") { assert "color" in HairKeywords; }
    if Includes(t, "dye") { assert "dye" in HairKeywords; }
    if Includes(t, "blonde") { assert "blonde" in HairKeywords; }
    if Includes(t, "brunette") { assert "brunette" in HairKeywords; }
    if Includes(t, "balayage") { assert "balayage" in HairKeywords; }
    if Includes(t, "style") { assert "style" in HairKeywords; }
    if Includes(t, "salon") { assert "salon" in HairKeywords; }
  }

  lemma SpaTestIsKeywordList(t: string)
    ensures SpaTest(t) <==> AnyIncluded(t, SpaKeywords)
  {
    if Includes(t, "spa") { assert "spa" in SpaKeywords; }
    if Includes(t, "facial") { assert "facial" in SpaKeywords; }
    if Includes(t, "skin") { assert "skin" in SpaKeywords; }
    if Includes(t, "mask") { assert "mask" in SpaKeywords; }
    if Includes(t, "massage") { assert "massage" in SpaKeywords; }
    if Includes(t, "relax") { assert "relax" in SpaKeywords; }
    if Includes(t, "wax") { assert "wax" in SpaKeywords; }
    if Includes(t, "botox") { assert "botox" in SpaKeywords; }
    if Includes(t, "esthetician") { assert "esthetician" in SpaKeywords; }
  }

  lemma TutorialTestIsKeywordList(t: string)
    ensures TutorialTest(t) <==> AnyIncluded(t, TutorialKeywords)
  {
    if Includes(t, "tutorial") { assert "tutorial" in TutorialKeywords; }
    if Includes(t, "how to") { assert "how to" in TutorialKeywords; }
    if Includes(t, "process") { assert "process" in TutorialKeywords; }
    if Includes(t, "teach") { assert "teach" in TutorialKeywords; }
    if Includes(t, "learn") { assert "learn" in TutorialKeywords; }
    if Includes(t, "behind the scenes") { assert "behind the scenes" in TutorialKeywords; }
    if Includes(t, "bts") { assert "bts" in TutorialKeywords; }
  }

  lemma ProductTestIsKeywordList(t: string)
    ensures ProductTest(t) <==> AnyIncluded(t, ProductKeywords)
  {
    if Includes(t, "product") { assert "product" in ProductKeywords; }
    if Includes(t, "serum") { assert "serum" in ProductKeywords; }
    if Includes(t, "shampoo") { assert "shampoo" in ProductKeywords; }
    if Includes(t, "buy") { assert "buy" in ProductKeywords; }
    if Includes(t, "sale") { assert "sale" in ProductKeywords; }
    if Includes(t, "shelf") { assert "shelf" in ProductKeywords; }
    if Includes(t, "retail") { assert "retail" in ProductKeywords; }
    if Includes(t, "conditioner") { assert "conditioner" in ProductKeywords; }
    if Includes(t, "lotion") { assert "lotion" in ProductKeywords; }
    if Includes(t, "shop") { assert "shop" in ProductKeywords; }
    if Includes(t, "store") { assert "store" in ProductKeywords; }
  }

  /** The last three tests of the chain are the first-match search over
      SPA, TUTORIAL, PRODUCT. */
  lemma {:induction false} LastThreeAreFirstMatching(t: string)
    ensures FirstMatching(t, [Spa, Tutorial, Product]) ==
              if SpaTest(t) then Spa else if TutorialTest(t) then Tutorial
              else if ProductTest(t) then Product else General
  {
    SpaTestIsKeywordList(t);
    TutorialTestIsKeywordList(t);
    ProductTestIsKeywordList(t);
    var tail := [Product];
    assert tail[1..] == [];
    assert FirstMatching(t, tail) == if ProductTest(t) then Product else General;
    tail := [Tutorial] + tail;
    assert tail[1..] == [Product];
    assert FirstMatching(t, tail) == if TutorialTest(t) then Tutorial else FirstMatching(t, [Product]);
    tail := [Spa] + tail;
    assert tail[1..] == [Tutorial, Product];
  }

  /** The hand-written chain is the first-match search over the ordered
      keyword table. */
  lemma {:induction false} CategorizeIsFirstMatching(t: string)
    ensures Categorize(t) == FirstMatching(t, Priority)
  {
    NailsTestIsKeywordList(t);
    BarberTestIsKeywordList(t);
    HairTestIsKeywordList(t);
    LastThreeAreFirstMatching(t);
    var tail := [Spa, Tutorial, Product];
    tail := [Hair] + tail;
    assert tail[1..] == [Spa, Tutorial, Product];
    assert FirstMatching(t, tail) == if HairTest(t) then Hair else FirstMatching(t, [Spa, Tutorial, Product]);
    tail := [Barber] + tail;
    assert tail[1..] == [Hair, Spa, Tutorial, Product];
    assert FirstMatching(t, tail) == if BarberTest(t) then Barber else FirstMatching(t, [Hair, Spa, Tutorial, Product]);
    tail := [Nails] + tail;
    assert tail[1..] == [Barber, Hair, Spa, Tutorial, Product];
    assert FirstMatching(t, tail) == if NailsTest(t) then Nails else FirstMatching(t, [Barber, Hair, Spa, Tutorial, Product]);
    assert tail == Priority;
  }


  // ---------------------------------------------------------------------
  // The first-match search, stated without recursion

  /** The category at index `i` of `cs` is the first one with a hit. */
  predicate FirstHitAt(t: string, cs: seq<Category>, i: int)
  {
    0 <= i < |cs| && AnyIncluded(t, Keywords(cs[i]))
    && forall j :: 0 <= j < i ==> !AnyIncluded(t, Keywords(cs[j]))
  }

  /** No category of `cs` has a hit. */
  predicate NoHit(t: string, cs: seq<Category>)
  {
    forall j :: 0 <= j < |cs| ==> !AnyIncluded(t, Keywords(cs[j]))
  }

  lemma {:induction false} FirstMatchingSpec(t: string, cs: seq<Category>, c: Category)
    ensures FirstMatching(t, cs) == c <==>
              (exists i :: FirstHitAt(t, cs, i) && cs[i] == c) || (NoHit(t, cs) && c == General)
    decreases |cs|
  {
    if cs != [] {
      FirstMatchingSpec(t, cs[1..], c);
      if AnyIncluded(t, Keywords(cs[0])) {
        assert FirstHitAt(t, cs, 0);
        assert !NoHit(t, cs);
      } else {
        if exists i :: FirstHitAt(t, cs[1..], i) && cs[1..][i] == c {
          var i :| FirstHitAt(t, cs[1..], i) && cs[1..][i] == c;
          assert FirstHitAt(t, cs, i + 1);
        }
        if exists i :: FirstHitAt(t, cs, i) && cs[i] == c {
          var i :| FirstHitAt(t, cs, i) && cs[i] == c;
          assert i > 0;
          assert FirstHitAt(t, cs[1..], i - 1);
        }
        if NoHit(t, cs[1..]) {
          assert NoHit(t, cs);
        }
        if NoHit(t, cs) {
          assert NoHit(t, cs[1..]);
        }
      }
    }
  }

  /** `getSmartImages` picks category `c` exactly when one of `c`'s keywords
      occurs in the lower-cased text and no keyword of an earlier category
      does; it picks GENERAL exactly when no keyword of any list occurs. */
  lemma CategorizeIsFirstHit(t: string, c: Category)
    ensures Categorize(t) == c <==>
              (exists i :: FirstHitAt(t, Priority, i) && Priority[i] == c)
              || (NoHit(t, Priority) && c == General)
  {
    CategorizeIsFirstMatching(t);
    FirstMatchingSpec(t, Priority, c);
  }

  /** The fallback: GENERAL exactly when none of the six lists has a keyword
      in the text. */
  lemma GeneralIffNoKeyword(t: string)
    ensures Categorize(t) == General <==>
              forall c :: c in Priority ==> !AnyIncluded(t, Keywords(c))
  {
    CategorizeIsFirstHit(t, General);
    if forall c :: c in Priority ==> !AnyIncluded(t, Keywords(c)) {
      forall j | 0 <= j < |Priority| ensures !AnyIncluded(t, Keywords(Priority[j])) {
        assert Priority[j] in Priority;
      }
    }
    if NoHit(t, Priority) {
      forall c | c in Priority ensures !AnyIncluded(t, Keywords(c)) {
        var j :| 0 <= j < |Priority| && Priority[j] == c;
      }
    }
  }

  /** Any NAILS keyword wins over every other list. */
  lemma NailsWins(t: string)
    requires exists k :: k in NailsKeywords && Includes(t, k)
    ensures Categorize(t) == Nails
  {
    NailsTestIsKeywordList(t);
  }

  /** A category is only picked when one of its own keywords is present. */
  lemma PickedCategoryHasKeyword(t: string)
    ensures Categorize(t) != General ==> AnyIncluded(t, Keywords(Categorize(t)))
  {
    NailsTestIsKeywordList(t);
    BarberTestIsKeywordList(t);
    HairTestIsKeywordList(t);
    SpaTestIsKeywordList(t);
    TutorialTestIsKeywordList(t);
    ProductTestIsKeywordList(t);
  }

  /** Matching happens on the lower-cased text: texts that agree up to case
      get the same list, and lower-casing first changes nothing. */
  lemma SmartImagesCaseInsensitive(a: string, b: string)
    requires ToLower(a) == ToLower(b)
    ensures SmartImages(a) == SmartImages(b)
    ensures SmartImages(ToLower(a)) == SmartImages(a)
  {
    ToLowerIdempotent(a);
  }

  // ---------------------------------------------------------------------
  // The ids of the library

  /** The letter every id of a collection starts with. */
  function IdLetter(c: Category): char
  {
    match c
    case Nails => 'n'
    case Barber => 'b'
    case Hair => 'h'
    case Spa => 's'
    case Tutorial => 't'
    case Product => 'p'
    case General => 'g'
  }

  /** The ids of `vs` are `letter` followed by 1, 2, 3, ... in order. */
  predicate Numbered(vs: seq<Visual>, letter: char)
  {
    forall i :: 0 <= i < |vs| ==> vs[i].id == [letter] + NatToString(i + 1)
  }

  /** A numbered list has only ids that start with its letter. */
  lemma NumberedIdsStartWith(vs: seq<Visual>, letter: char)
    requires Numbered(vs, letter)
    ensures forall v :: v in vs ==> |v.id| > 0 && v.id[0] == letter
  {
    forall v | v in vs ensures |v.id| > 0 && v.id[0] == letter {
      var i :| 0 <= i < |vs| && vs[i] == v;
    }
  }

  lemma NailsNumbered()
    ensures Numbered(NailsImages, 'n')
  {
  }

  lemma BarberNumbered()
    ensures Numbered(BarberImages, 'b')
  {
  }

  lemma HairNumbered()
    ensures Numbered(HairImages, 'h')
  {
  }

  lemma SpaNumbered()
    ensures Numbered(SpaImages, 's')
  {
  }

  lemma TutorialNumbered()
    ensures Numbered(TutorialImages, 't')
  {
  }

  lemma ProductNumbered()
    ensures Numbered(ProductImages, 'p')
  {
  }

  lemma GeneralNumbered()
    ensures Numbered(GeneralImages, 'g')
  {
  }

  /** Every collection lists its pictures as the category letter followed by
      1, 2, 3, ... in authored order (NAILS is n1 to n6, and so on). */
  lemma LibraryIdsNumbered(c: Category)
    ensures Numbered(Library(c), IdLetter(c))
  {
    match c
    case Nails => NailsNumbered();
    case Barber => BarberNumbered();
    case Hair => HairNumbered();
    case Spa => SpaNumbered();
    case Tutorial => TutorialNumbered();
    case Product => ProductNumbered();
    case General => GeneralNumbered();
  }

  /** A list is "generic" when its first id starts with 'g'. */
  predicate IsGenericList(vs: seq<Visual>)
  {
    |vs| > 0 && StartsWith(vs[0].id, "g")
  }

  /** The first id starts with 'g' exactly for GENERAL, and no id of another
      collection starts with 'g'. */
  lemma GenericExactlyGeneral(c: Category)
    ensures IsGenericList(Library(c)) <==> c == General
    ensures c != General ==> forall v :: v in Library(c) ==> !StartsWith(v.id, "g")
  {
    LibraryIdsNumbered(c);
    NumberedIdsStartWith(Library(c), IdLetter(c));
    assert Library(c)[0] in Library(c);
  }

  /** `getSmartImages` returns a generic list exactly when the text resolves to
      GENERAL. */
  lemma SmartImagesGenericIffGeneral(text: string)
    ensures IsGenericList(SmartImages(text)) <==> Categorize(ToLower(text)) == General
  {
    GenericExactlyGeneral(Categorize(ToLower(text)));
  }

  /** Different categories have different collections. */
  lemma LibraryInjective(c: Category, d: Category)
    requires c != d
    ensures Library(c) != Library(d)
  {
    FirstIdLetter(c);
    FirstIdLetter(d);
    IdLetterInjective(c, d);
  }

  lemma FirstIdLetter(c: Category)
    ensures |Library(c)[0].id| > 0 && Library(c)[0].id[0] == IdLetter(c)
  {
    LibraryIdsNumbered(c);
    NumberedIdsStartWith(Library(c), IdLetter(c));
    assert Library(c)[0] in Library(c);
  }

  lemma IdLetterInjective(c: Category, d: Category)
    requires c != d
    ensures IdLetter(c) != IdLetter(d)
  {
  }
}

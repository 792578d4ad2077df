/** The public packages page: which language variant of each field is
    shown, the playful tag each card carries, the detail modal's fallbacks,
    and the loading / success / empty / error decision after a fetch. */
module Listing {
  import opened Base
  import opened Text
  import opened Model
  import opened Language
  import Store

  /** What a card or the detail modal shows of one package
      (`getPackageData`). */
  datatype Shown = Shown(
    title: string,
    description: string,
    full_description: string,
    features: Option<seq<string>>,
    duration: Option<string>)

  /** `language === 'am' && am ? am : base` for a string variant. */
  function Variant(lang: Lang, am: Option<string>, base: string): string {
    if lang == Am && Truthy(am) then am.value else base
  }

  /** `getPackageData`: a string variant is used only in Amharic and only
      when it is non-empty; the feature list variant is used in Amharic
      whenever it is present, even empty; the long description falls back
      to the base long description, then to the short one. No shown text is
      blank when its base text is not. */
  function Localize(lang: Lang, p: Package): (r: Shown)
    ensures lang == Am && Truthy(p.title_am) ==> r.title == p.title_am.value
    ensures !(lang == Am && Truthy(p.title_am)) ==> r.title == p.title
    ensures lang == Am && Truthy(p.description_am) ==> r.description == p.description_am.value
    ensures !(lang == Am && Truthy(p.description_am)) ==> r.description == p.description
    ensures lang == Am && Truthy(p.duration_am) ==> r.duration == p.duration_am
    ensures !(lang == Am && Truthy(p.duration_am)) ==> r.duration == p.duration
    ensures lang == Am && p.features_am.Some? ==> r.features == p.features_am
    ensures !(lang == Am && p.features_am.Some?) ==> r.features == p.features
    ensures lang == Am && Truthy(p.full_description_am) ==> r.full_description == p.full_description_am.value
    ensures !(lang == Am && Truthy(p.full_description_am)) && Truthy(p.full_description)
            ==> r.full_description == p.full_description.value
    ensures !(lang == Am && Truthy(p.full_description_am)) && !Truthy(p.full_description)
            ==> r.full_description == p.description
    ensures p.title != "" ==> r.title != ""
    ensures p.description != "" ==> r.description != "" && r.full_description != ""
  {
    Shown(
      Variant(lang, p.title_am, p.title),
      Variant(lang, p.description_am, p.description),
      if lang == Am && Truthy(p.full_description_am) then p.full_description_am.value
      else OrElse(p.full_description, p.description),
      if lang == Am && p.features_am.Some? then p.features_am else p.features,
      if lang == Am && Truthy(p.duration_am) then p.duration_am else p.duration)
  }

  /** In English every shown field is the base field, the long description
      alone falling back to the short one. */
  lemma EnglishShowsBase(p: Package)
    ensures Localize(En, p)
         == Shown(p.title, p.description, OrElse(p.full_description, p.description), p.features, p.duration)
  {
  }

  /** The Amharic variants are invisible in English: two packages that
      differ only in them look the same. */
  lemma EnglishIgnoresAmharic(p: Package, title_am: Option<string>, description_am: Option<string>,
                              full_description_am: Option<string>, features_am: Option<seq<string>>,
                              duration_am: Option<string>)
    ensures Localize(En, p.(title_am := title_am, description_am := description_am,
                            full_description_am := full_description_am,
                            features_am := features_am, duration_am := duration_am))
         == Localize(En, p)
  {
  }

  /** In Amharic, a package without an Amharic title shows its base title,
      and one with an empty Amharic title does too. */
  lemma AmharicTitleFallsBack(p: Package)
    requires p.title_am.None? || p.title_am == Some("")
    ensures Localize(Am, p).title == p.title
  {
  }

  /** An empty Amharic feature list is shown as empty in Amharic: unlike
      the string fields it does not fall back. */
  lemma EmptyAmharicFeaturesDoNotFallBack(p: Package)
    requires p.features_am == Some([]) && p.features.Some? && p.features.value != []
    ensures Localize(Am, p).features == Some([])
    ensures Localize(Am, p).features != p.features
  {
  }

  // ---------------------------------------------------------------------
  // Card tags and modal fallbacks.

  const WaterTherapy := "Water Therapy 💧"
  const LegDay := "Leg Day (Optional) 🦵"
  const CaffeineAndChill := "Caffeine & Chill ☕"
  const FoodComa := "Food Coma Incoming 🥘"
  const WorthIt := "100% Worth It ✨"

  /** `getFunnyTag`: the first keyword found in the lower-cased title, in
      the order lake, hike, coffee, food or lunch, picks the tag. */
  function FunnyTag(title: string): (r: string)
    ensures r in [WaterTherapy, LegDay, CaffeineAndChill, FoodComa, WorthIt]
    ensures r == WaterTherapy <==> Contains(ToLower(title), "lake")
  {
    var t := ToLower(title);
    if Contains(t, "lake") then WaterTherapy
    else if Contains(t, "hike") then LegDay
    else if Contains(t, "coffee") then CaffeineAndChill
    else if Contains(t, "food") || Contains(t, "lunch") then FoodComa
    else WorthIt
  }

  /** The tag is decided by the first keyword the lower-cased title
      contains, and is the default exactly when it contains none. */
  lemma FunnyTagPriority(title: string)
    ensures var t := ToLower(title);
      && (Contains(t, "lake") ==> FunnyTag(title) == WaterTherapy)
      && (!Contains(t, "lake") && Contains(t, "hike") ==> FunnyTag(title) == LegDay)
      && (!Contains(t, "lake") && !Contains(t, "hike") && Contains(t, "coffee")
          ==> FunnyTag(title) == CaffeineAndChill)
      && (!Contains(t, "lake") && !Contains(t, "hike") && !Contains(t, "coffee") && (Contains(t, "food") || Contains(t, "lunch"))
          ==> FunnyTag(title) == FoodComa)
      && (FunnyTag(title) == WorthIt
          <==> !Contains(t, "lake") && !Contains(t, "hike") && !Contains(t, "coffee")
               && !Contains(t, "food") && !Contains(t, "lunch"))
  {
  }

  /** Letter case in the title never changes the tag. */
  lemma FunnyTagIgnoresCase(title: string)
    ensures FunnyTag(ToLower(title)) == FunnyTag(title)
  {
    ToLowerIdempotent(title);
  }

  /** The seeded lake package is tagged as water therapy. */
  lemma SeedLakeTag()
    ensures FunnyTag(LakeTitle) == WaterTherapy
  {
    LakeTitleTag(LakeTitle[4..]);
    assert LakeTitle == "Lake" + LakeTitle[4..];
  }

  /** Every title opening with "Lake" is tagged as water therapy. */
  lemma LakeTitleTag(rest: string)
    ensures FunnyTag("Lake" + rest) == WaterTherapy
  {
  }

  const LakeQuote := "Water is cheaper than therapy."
  const GrassQuote := "Touch grass, not screens."

  /** The modal's quote: `title.includes('Lake')`, case-sensitive. */
  function ModalQuote(title: string): (r: string)
    ensures r == LakeQuote <==> Contains(title, "Lake")
    ensures r == GrassQuote <==> !Contains(title, "Lake")
  {
    if Contains(title, "Lake") then LakeQuote else GrassQuote
  }

  /** The two checks agree in one direction: a title that gets the lake
      quote always carries the water-therapy tag, since lower-casing turns
      its "Lake" into "lake" at the same place. */
  lemma {:induction false} LakeQuoteMeansLakeTag(title: string)
    requires ModalQuote(title) == LakeQuote
    ensures FunnyTag(title) == WaterTherapy
  {
    ContainsIff(title, "Lake");
    var k :| OccursAt(title, "Lake", k);
    var t := ToLower(title);
    forall j | 0 <= j < 4
      ensures t[k + j] == "lake"[j]
    {
      assert title[k + j] == "Lake"[j];
    }
    assert t[k..k + 4] == "lake";
    assert OccursAt(t, "lake", k);
    ContainsIff(t, "lake");
  }

  /** The card tag and the modal quote disagree on case: a title spelled
      "lake" is tagged as water therapy but gets the grass quote. */
  lemma QuoteIsCaseSensitive()
    ensures FunnyTag("lake") == WaterTherapy
    ensures ModalQuote("lake") == GrassQuote
  {
  }

  /** `selectedPackage.price || 'Free'`. */
  function PriceLabel(p: Package): (r: string)
    ensures Truthy(p.price) ==> r == p.price.value
    ensures !Truthy(p.price) ==> r == "Free"
    ensures r != ""
  {
    OrElse(p.price, "Free")
  }

  /** The modal's duration: the shown duration, or the translated
      "time" placeholder when it is blank or absent. */
  function DurationLabel(lang: Lang, p: Package, placeholder: string): (r: string)
    ensures lang == Am && Truthy(p.duration_am) ==> r == p.duration_am.value
    ensures !(lang == Am && Truthy(p.duration_am)) && Truthy(p.duration) ==> r == p.duration.value
    ensures !(lang == Am && Truthy(p.duration_am)) && !Truthy(p.duration) ==> r == placeholder
    ensures placeholder != "" ==> r != ""
  {
    OrElse(Localize(lang, p).duration, placeholder)
  }

  /** The modal's long text: `full_description || description` of the
      shown fields. */
  function ModalBody(lang: Lang, p: Package): (r: string)
    ensures lang == Am && Truthy(p.full_description_am) ==> r == p.full_description_am.value
    ensures !(lang == Am && Truthy(p.full_description_am)) && Truthy(p.full_description)
            ==> r == p.full_description.value
    ensures !(lang == Am && Truthy(p.full_description_am)) && !Truthy(p.full_description) && p.description != ""
            ==> r == p.description
    ensures !(lang == Am && Truthy(p.full_description_am)) && !Truthy(p.full_description) && p.description == ""
            ==> r == Localize(lang, p).description
    ensures p.description != "" ==> r != ""
  {
    var s := Localize(lang, p);
    if s.full_description != "" then s.full_description else s.description
  }

  /** Without any long text, the Amharic modal falls back to the English
      short description, while the card shows the Amharic one: the
      long-text fallback of the shown record takes the base description. */
  lemma ModalShowsEnglishShortText(p: Package)
    requires !Truthy(p.full_description_am) && !Truthy(p.full_description)
    requires p.description != "" && Truthy(p.description_am)
    ensures ModalBody(Am, p) == p.description
    ensures Localize(Am, p).description == p.description_am.value
  {
  }

  // ---------------------------------------------------------------------
  // Listing view state.

  datatype ViewState = Loading | Error | Success | Empty

  /** The page's state: the packages it holds and what it displays. */
  datatype Page = Page(packages: seq<Package>, view: ViewState)

  /** Starting a fetch shows the spinner. */
  function FetchStart(s: Page): (r: Page)
    ensures r.view == Loading && r.packages == s.packages
  {
    s.(view := Loading)
  }

  /** `fetchPackages` settling: a result replaces the packages and shows
      them, or the empty note when there are none; a thrown error keeps the
      packages and shows the error note. */
  function FetchSettled(s: Page, result: Result<seq<Package>>): (r: Page)
    ensures result.Ok? ==> r.packages == result.value
    ensures result.Err? ==> r.packages == s.packages
    ensures r.view == Success <==> result.Ok? && |result.value| > 0
    ensures r.view == Empty <==> result.Ok? && result.value == []
    ensures r.view == Error <==> result.Err?
  {
    match result
    case Ok(data) => Page(data, if |data| > 0 then Success else Empty)
    case Err(_) => s.(view := Error)
  }

  /** In demo mode the page never shows the error note, and on the seeded
      store it shows exactly the lake package. */
  lemma DemoListing(s: Page, mock: seq<Package>, reply: Store.Reply<seq<Package>>, t1: string, t2: string)
    ensures FetchSettled(s, Store.GetActive(true, mock, reply)).view != Error
    ensures FetchSettled(s, Store.GetActive(true, Seed(t1, t2), reply)) == Page([SeedLake(t1)], Success)
  {
    Store.SeedListing(t1, t2);
  }
}

/** The `Package` record (a day-trip offer), its `Partial<Package>` form
    used for drafts and updates, the object spread `{...p, ...u}` that merges
    one into the other, and the two packages the demo store starts with. */
module Model {
  import opened Base

  /** A bookable day trip. The `_am` fields are the Amharic variants; a
      field of type `Option` is an optional key of the record. */
  datatype Package = Package(
    id: string,
    title: string,
    title_am: Option<string>,
    description: string,
    description_am: Option<string>,
    full_description: Option<string>,
    full_description_am: Option<string>,
    features: Option<seq<string>>,
    features_am: Option<seq<string>>,
    image: string,
    duration: Option<string>,
    duration_am: Option<string>,
    date: Option<string>,
    price: Option<string>,
    start_time: Option<string>,
    end_time: Option<string>,
    is_active: bool,
    created_at: Option<string>)

  /** `Partial<Package>`: every key may be absent (`None`). For a key that is
      optional in `Package` the patch value is the value the key takes. */
  datatype Patch = Patch(
    id: Option<string>,
    title: Option<string>,
    title_am: Option<string>,
    description: Option<string>,
    description_am: Option<string>,
    full_description: Option<string>,
    full_description_am: Option<string>,
    features: Option<seq<string>>,
    features_am: Option<seq<string>>,
    image: Option<string>,
    duration: Option<string>,
    duration_am: Option<string>,
    date: Option<string>,
    price: Option<string>,
    start_time: Option<string>,
    end_time: Option<string>,
    is_active: Option<bool>,
    created_at: Option<string>)

  /** The object with no keys, `{}`. */
  const NoKeys := Patch(None, None, None, None, None, None, None, None, None,
                        None, None, None, None, None, None, None, None, None)

  /** The later of two values for one key in a spread: `u` when present. */
  function Pick<T>(prev: Option<T>, u: Option<T>): Option<T> {
    if u.Some? then u else prev
  }

  /** A package viewed as a partial record: its required keys are all
      present, its optional keys present exactly when the package has them. */
  function View(p: Package): (r: Patch)
    ensures r.id.Some? && r.title.Some? && r.description.Some?
    ensures r.image.Some? && r.is_active.Some?
  {
    Patch(Some(p.id), Some(p.title), p.title_am, Some(p.description), p.description_am,
          p.full_description, p.full_description_am, p.features, p.features_am,
          Some(p.image), p.duration, p.duration_am, p.date, p.price,
          p.start_time, p.end_time, Some(p.is_active), p.created_at)
  }

  /** `{...d, ...u}` on two partial records: each key of `u` replaces the
      same key of `d`; keys `u` lacks keep `d`'s value. */
  function Overlay(d: Patch, u: Patch): Patch {
    Patch(Pick(d.id, u.id), Pick(d.title, u.title), Pick(d.title_am, u.title_am),
          Pick(d.description, u.description), Pick(d.description_am, u.description_am),
          Pick(d.full_description, u.full_description),
          Pick(d.full_description_am, u.full_description_am),
          Pick(d.features, u.features), Pick(d.features_am, u.features_am),
          Pick(d.image, u.image), Pick(d.duration, u.duration),
          Pick(d.duration_am, u.duration_am), Pick(d.date, u.date), Pick(d.price, u.price),
          Pick(d.start_time, u.start_time), Pick(d.end_time, u.end_time),
          Pick(d.is_active, u.is_active), Pick(d.created_at, u.created_at))
  }

  /** Every key present in `u` holds the same value in `p`. */
  predicate Agrees(p: Package, u: Patch) {
    && (u.id.Some? ==> p.id == u.id.value)
    && (u.title.Some? ==> p.title == u.title.value)
    && (u.title_am.Some? ==> p.title_am == u.title_am)
    && (u.description.Some? ==> p.description == u.description.value)
    && (u.description_am.Some? ==> p.description_am == u.description_am)
    && (u.full_description.Some? ==> p.full_description == u.full_description)
    && (u.full_description_am.Some? ==> p.full_description_am == u.full_description_am)
    && (u.features.Some? ==> p.features == u.features)
    && (u.features_am.Some? ==> p.features_am == u.features_am)
    && (u.image.Some? ==> p.image == u.image.value)
    && (u.duration.Some? ==> p.duration == u.duration)
    && (u.duration_am.Some? ==> p.duration_am == u.duration_am)
    && (u.date.Some? ==> p.date == u.date)
    && (u.price.Some? ==> p.price == u.price)
    && (u.start_time.Some? ==> p.start_time == u.start_time)
    && (u.end_time.Some? ==> p.end_time == u.end_time)
    && (u.is_active.Some? ==> p.is_active == u.is_active.value)
    && (u.created_at.Some? ==> p.created_at == u.created_at)
  }

  /** `{...p, ...u}`: the package `p` with every key present in `u`
      replaced by `u`'s value. */
  function Apply(p: Package, u: Patch): (r: Package)
    ensures Agrees(r, u)
  {
    p.(id := u.id.GetOr(p.id),
       title := u.title.GetOr(p.title),
       title_am := Pick(p.title_am, u.title_am),
       description := u.description.GetOr(p.description),
       description_am := Pick(p.description_am, u.description_am),
       full_description := Pick(p.full_description, u.full_description),
       full_description_am := Pick(p.full_description_am, u.full_description_am),
       features := Pick(p.features, u.features),
       features_am := Pick(p.features_am, u.features_am),
       image := u.image.GetOr(p.image),
       duration := Pick(p.duration, u.duration),
       duration_am := Pick(p.duration_am, u.duration_am),
       date := Pick(p.date, u.date),
       price := Pick(p.price, u.price),
       start_time := Pick(p.start_time, u.start_time),
       end_time := Pick(p.end_time, u.end_time),
       is_active := u.is_active.GetOr(p.is_active),
       created_at := Pick(p.created_at, u.created_at))
  }

  /** Spreading a package's own keys back over it changes nothing, and a
      package already agreeing with a patch is left as it is. */
  lemma ApplyAgreeingIsIdentity(p: Package, u: Patch)
    requires Agrees(p, u)
    ensures Apply(p, u) == p
  {
  }

  /** Seen as partial records, the spread of `u` over `p` is the overlay of
      `u` on `p`: keys in `u` take `u`'s value, every other key keeps `p`'s. */
  lemma ApplyView(p: Package, u: Patch)
    ensures View(Apply(p, u)) == Overlay(View(p), u)
  {
  }

  /** Two spreads in a row are one spread of the overlaid patches. */
  lemma ApplyOverlay(p: Package, u: Patch, v: Patch)
    ensures Apply(Apply(p, u), v) == Apply(p, Overlay(u, v))
  {
  }

  /** The record a draft becomes when the store gives it an id and a
      timestamp: `{...draft, id, created_at}`. A required key the draft lacks
      reads as the falsy value of its type. */
  function FromDraft(d: Patch, id: string, now: string): (r: Package)
    ensures r.id == id && r.created_at == Some(now)
    ensures Agrees(r, d.(id := None, created_at := None))
  {
    Package(id, d.title.GetOr(""), d.title_am, d.description.GetOr(""), d.description_am,
            d.full_description, d.full_description_am, d.features, d.features_am,
            d.image.GetOr(""), d.duration, d.duration_am, d.date, d.price,
            d.start_time, d.end_time, d.is_active.GetOr(false), Some(now))
  }

  /** The keys a draft needs for the created record to carry no invented
      values. */
  predicate HasRequiredKeys(d: Patch) {
    d.title.Some? && d.description.Some? && d.image.Some? && d.is_active.Some?
  }

  /** Round trip of creation: seen as a partial record, the created package
      is exactly the draft with the assigned id and timestamp, so no draft
      key is lost and no optional key is invented. */
  lemma FromDraftRoundTrip(d: Patch, id: string, now: string)
    requires HasRequiredKeys(d)
    ensures View(FromDraft(d, id, now)) == d.(id := Some(id), created_at := Some(now))
  {
  }

  /** The image every seeded package uses. */
  const SeedImage := "https://media-cdn.tripadvisor.com/media/attractions-splice-spp-720x480/14/be/50/9e.jpg"

  // The copy of the first seeded package (active).
  const LakeTitle := "Lake Hora Easy Day Out"
  const LakeTitleAm := "ሆራ ሐይቅ የቀን ሽርሽር"
  const LakeDescription := "Relax by the lake, eat good food, and take your time."
  const LakeDescriptionAm := "ሐይቅ ዳር ዘና ይበሉ፣ ምርጥ ምግብ ይመገቡ፣ ጊዜዎን ይውሰዱ።"
  const LakeFullDescription := "This experience is perfect if you want a calm day near the lake. No rushing. Plenty of time to enjoy the view and good food."
  const LakeFullDescriptionAm := "ይህ ፓኬጅ ከሐይቅ ዳር የተረጋጋ ቀን ለሚፈልጉ ተስማሚ ነው። መጣደፍ የለም። እይታውን እና ምግቡን ለመደሰት በቂ ጊዜ አለ።"
  const LakeFeatures := ["Lakeside seating", "Local lunch included", "Free time for photos"]
  const LakeFeaturesAm := ["ሐይቅ ዳር መቀመጫ", "ምሳ ተካትቷል", "ለፎቶ የሚሆን በቂ ጊዜ"]
  const LakeDurationAm := "1 ቀን"

  // The copy of the second seeded package (hidden).
  const CraterTitle := "Crater Hike Adventure"
  const CraterTitleAm := "የእግር ጉዞ ወደ ክሬተር"
  const CraterDescription := "Explore the volcanic history of Bishoftu with a guided hike."
  const CraterDescriptionAm := "የቢሾፍቱን ታሪክ በእግር ጉዞ ያስሱ።"
  const CraterFullDescription := "A moderate hike around the rim of the crater lakes. Stunning views and fresh air guaranteed."
  const CraterFullDescriptionAm := "በክሬተር ሐይቆች ዙሪያ የሚደረግ የእግር ጉዞ። አስደናቂ እይታ እና ንጹህ አየር።"
  const CraterFeatures := ["Guided hike", "Water snacks provided", "Binoculars for bird watching"]
  const CraterFeaturesAm := ["አስጎብኚ", "ውሃ እና መክሰስ", "ወፍ ለመመልከት", "ካሜራ"]
  const CraterDurationAm := "ግማሽ ቀን"

  /** The first seeded package, stamped with load time `t`. */
  function SeedLake(t: string): Package {
    Package("1", LakeTitle, Some(LakeTitleAm), LakeDescription, Some(LakeDescriptionAm),
            Some(LakeFullDescription), Some(LakeFullDescriptionAm),
            Some(LakeFeatures), Some(LakeFeaturesAm), SeedImage,
            Some("1 Day"), Some(LakeDurationAm), Some("2023-11-15"), Some("1,500 ETB"),
            Some("09:00"), Some("17:00"), true, Some(t))
  }

  /** The second seeded package, stamped with load time `t`. */
  function SeedCrater(t: string): Package {
    Package("2", CraterTitle, Some(CraterTitleAm), CraterDescription, Some(CraterDescriptionAm),
            Some(CraterFullDescription), Some(CraterFullDescriptionAm),
            Some(CraterFeatures), Some(CraterFeaturesAm), SeedImage,
            Some("Half Day"), Some(CraterDurationAm), Some("2023-11-20"), Some("800 ETB"),
            Some("08:00"), Some("12:00"), false, Some(t))
  }

  /** The two packages the demo store holds when the site loads, stamped
      with the load times `t1` and `t2`. */
  function Seed(t1: string, t2: string): (r: seq<Package>)
    ensures |r| == 2
    ensures r[0].id == "1" && r[0].is_active
    ensures r[1].id == "2" && !r[1].is_active
  {
    [SeedLake(t1), SeedCrater(t2)]
  }

  /** A visitor's message as the contact form sends it. */
  datatype Feedback = Feedback(name: string, message: string)
}

/**
 * `TherapistSearch.createTherapistCard`: the display fields of one provider
 * card, derived from the raw result record the search API returns. The card
 * is the display model; the HTML around it is not modelled.
 */
module TherapistCard {
  import opened Wrappers
  import opened JsText
  import opened JsValues

  /** `glance_appointments`, which the API sends as a text or a list of slots. */
  datatype Glance = GlanceText(text: string) | GlanceList(slots: seq<string>)

  /** One element of `results` in the search response, with the API's field names in camel case. */
  datatype Provider = Provider(
    name: Option<string>,
    jobTitle: Option<string>,
    city: Option<string>,
    state: Option<string>,
    feeIndividual: Value,
    languages: Value,
    specialties: Value,
    descriptionPreview: Option<string>,
    telehealthAvailable: Value,
    glanceAppointments: Option<Glance>,
    providerType: Option<string>,
    profileUrl: Option<string>,
    rankingExplanation: Option<string>)

  /** The provider-type badge: its caption (the label), icon classes and CSS class. */
  datatype Badge = Badge(caption: string, icon: string, cssClass: string)

  /** The "Why this match" line: the server's own words, or the generic sentence built from the similarity score. */
  datatype Explanation = Stated(text: string) | HighSimilarity

  /** The display model of one card. */
  datatype Card = Card(
    name: string,
    jobTitle: string,
    location: string,
    fee: string,
    languages: string,
    telehealth: bool,
    specialties: seq<string>,
    description: string,
    explanation: Explanation,
    badge: Badge,
    profileUrl: string)

  const MaxSpecialties: nat := 5
  const DescriptionLimit: nat := 150
  const Ellipsis: string := "..."
  const DefaultLanguage: string := "English"
  const NoFee: string := "Contact for pricing"
  const FallbackDescription: string :=
    "Professional therapist committed to helping clients achieve their mental health goals."

  const TherapistBadge: Badge := Badge("Licensed Therapist", "fas fa-user-md", "provider-therapist")

  /** The badge table, keyed by `provider_type`. */
  const ProviderTypeInfo: map<string, Badge> := map[
    "therapist" := TherapistBadge,
    "life_coach" := Badge("Life Coach", "fas fa-lightbulb", "provider-coach"),
    "nutrition_coach" := Badge("Nutrition Coach", "fas fa-apple-alt", "provider-nutrition")]

  /** `field || fallback` on a string field: a missing or empty text gives the fallback. */
  function OrDefault(v: Option<string>, fallback: string): (r: string)
    ensures v.Some? && v.value != "" ==> r == v.value
    ensures v.None? || v.value == "" ==> r == fallback
  {
    if v.Some? && v.value != "" then v.value else fallback
  }

  /** The languages line: an array is joined with ", ", another truthy value is shown as text, anything else is "English". */
  function LanguagesText(v: Value): (r: string)
    ensures v.Arr? ==> r == Join(v.items, ", ")
    ensures !v.Arr? && Truthy(v) ==> r == ToText(v)
    ensures !Truthy(v) ==> r == DefaultLanguage
  {
    if v.Arr? then Join(v.items, ", ")
    else if Truthy(v) then ToText(v)
    else DefaultLanguage
  }

  /** Every language of a languages array is visible in the languages line. */
  lemma LanguagesListed(langs: seq<string>, i: nat)
    requires i < |langs|
    ensures Includes(LanguagesText(Arr(langs)), langs[i])
  {
    var k := JoinOffset(langs, ", ", i);
    IncludesAt(Join(langs, ", "), langs[i], k);
  }

  /** Where the `i`-th element starts inside the joined text. */
  lemma {:induction false} JoinOffset(xs: seq<string>, sep: string, i: nat) returns (k: nat)
    requires i < |xs|
    ensures OccursAt(Join(xs, sep), xs[i], k)
  {
    if i == 0 {
      k := 0;
    } else {
      var j := JoinOffset(xs[1..], sep, i - 1);
      var rest := Join(xs[1..], sep);
      assert Join(xs, sep) == xs[0] + sep + rest;
      k := |xs[0]| + |sep| + j;
      assert Join(xs, sep)[k..k + |xs[i]|] == rest[j..j + |xs[i]|];
    }
  }

  /** The specialty tags: the first five entries of an array, in order; none for anything else. */
  function SpecialtyTags(v: Value): (r: seq<string>)
    ensures |r| <= MaxSpecialties
    ensures v.Arr? ==> |r| == (if |v.items| < MaxSpecialties then |v.items| else MaxSpecialties)
    ensures v.Arr? ==> forall i :: 0 <= i < |r| ==> r[i] == v.items[i]
    ensures !v.Arr? ==> r == []
  {
    if !v.Arr? then []
    else if |v.items| <= MaxSpecialties then v.items
    else v.items[..MaxSpecialties]
  }

  /** The fee line: "$" followed by the value when it is truthy, otherwise "Contact for pricing". */
  function FeeText(v: Value): (r: string)
    ensures Truthy(v) ==> r == "$" + ToText(v)
    ensures !Truthy(v) ==> r == NoFee
  {
    if Truthy(v) then "$" + ToText(v) else NoFee
  }

  /** A positive numeric fee is shown as "$" and digits that read back as the fee; a zero fee asks the user to get in touch. */
  lemma FeeOfNumber(n: int)
    ensures n > 0 ==> var r := FeeText(Num(n));
                      r[0] == '$' && IsDigits(r[1..]) && DigitsValue(r[1..]) == n
    ensures n == 0 ==> FeeText(Num(n)) == NoFee
  {
    if n > 0 {
      assert FeeText(Num(n))[1..] == NatToDecimal(n);
      DecimalRoundTrip(n);
    }
  }

  /** A description over 150 characters keeps its first 150 and gains "..."; a shorter one is kept whole. */
  function Shorten(d: string): (r: string)
    ensures |r| <= DescriptionLimit + |Ellipsis|
    ensures |d| > DescriptionLimit ==> |r| == DescriptionLimit + |Ellipsis|
                                       && r[..DescriptionLimit] == d[..DescriptionLimit]
                                       && r[DescriptionLimit..] == Ellipsis
    ensures |d| <= DescriptionLimit ==> r == d
  {
    if |d| > DescriptionLimit then d[..DescriptionLimit] + Ellipsis else d
  }

  /** Shortening an already shortened description gives it back unchanged. */
  lemma ShortenIdempotent(d: string)
    ensures Shorten(Shorten(d)) == Shorten(d)
  {
  }

  /** The description line: the preview, shortened, or the fallback sentence when there is no preview. */
  function DescriptionText(d: Option<string>): (r: string)
    ensures |r| <= DescriptionLimit + |Ellipsis|
    ensures d.Some? && d.value != "" ==> r == Shorten(d.value)
    ensures d.None? || d.value == "" ==> r == FallbackDescription
  {
    Shorten(OrDefault(d, FallbackDescription))
  }

  /** `glance_appointments` announces online sessions: a text containing "online", or a list with an "online" entry. */
  ghost predicate OffersOnline(g: Option<Glance>) {
    match g
    case None => false
    case Some(GlanceText(t)) => exists k :: OccursAt(t, "online", k)
    case Some(GlanceList(slots)) => "online" in slots
  }

  /** The telehealth flag of the card, computed with `includes` on the text or on the list. */
  function Telehealth(flag: Value, glance: Option<Glance>): (r: bool)
    ensures r <==> Truthy(flag) || OffersOnline(glance)
  {
    Truthy(flag) ||
    match glance
    case None => false
    case Some(GlanceText(t)) =>
      IncludesIff(t, "online");
      t != "" && Includes(t, "online")
    case Some(GlanceList(slots)) => "online" in slots
  }

  /** The ranking line: the server's explanation when present and non-empty, else the generic sentence. */
  function ExplanationFor(e: Option<string>): (r: Explanation)
    ensures r.Stated? <==> e.Some? && e.value != ""
    ensures r.Stated? ==> r.text == e.value
  {
    if e.Some? && e.value != "" then Stated(e.value) else HighSimilarity
  }

  /** The badge for a provider type: its table entry, or the therapist badge for a missing or unknown type. */
  function BadgeFor(t: Option<string>): (r: Badge)
    ensures r in ProviderTypeInfo.Values
    ensures t.Some? && t.value in ProviderTypeInfo ==> r == ProviderTypeInfo[t.value]
    ensures t.None? || t.value !in ProviderTypeInfo ==> r == TherapistBadge
  {
    assert ProviderTypeInfo["therapist"] == TherapistBadge;
    if t.Some? && t.value in ProviderTypeInfo then ProviderTypeInfo[t.value] else TherapistBadge
  }

  /**
   * Names of the properties every plain JavaScript object inherits from
   * `Object.prototype`. A lookup `table[key]` with one of these keys finds the
   * inherited function or object instead of `undefined`.
   */
  const ObjectPrototypeKeys: set<string> := {
    "constructor", "__proto__", "hasOwnProperty", "isPrototypeOf",
    "propertyIsEnumerable", "toLocaleString", "toString", "valueOf",
    "__defineGetter__", "__defineSetter__", "__lookupGetter__", "__lookupSetter__"}

  /** The key a JavaScript property lookup converts `provider_type` to. */
  function PropertyKey(t: Option<string>): (k: string)
    ensures t.Some? ==> k == t.value
    ensures t.None? ==> k == "undefined"
  {
    match t
    case Some(s) => s
    case None => "undefined"
  }

  /**
   * The badge as the page computes it: `providerTypeInfo[provider_type] || providerTypeInfo['therapist']`.
   * An inherited member is truthy, so the fallback is skipped, and the label,
   * icon and class it lacks all read as "undefined" in the template.
   */
  function AsWrittenBadge(t: Option<string>): (r: Badge)
    ensures PropertyKey(t) in ObjectPrototypeKeys ==> r == Badge("undefined", "undefined", "undefined")
    ensures PropertyKey(t) !in ObjectPrototypeKeys ==> r == BadgeFor(t)
  {
    var key := PropertyKey(t);
    if key in ProviderTypeInfo then ProviderTypeInfo[key]
    else if key in ObjectPrototypeKeys then Badge("undefined", "undefined", "undefined")
    else TherapistBadge
  }

  /** A provider type of "constructor" gets a badge outside the table instead of the therapist default. */
  lemma AsWrittenBadgeEscapesDefault()
    ensures AsWrittenBadge(Some("constructor")) !in ProviderTypeInfo.Values
    ensures BadgeFor(Some("constructor")) == TherapistBadge
  {
  }

  /** The display model of one result record. */
  function CardFor(t: Provider): (c: Card)
    ensures |c.specialties| <= MaxSpecialties
    ensures |c.description| <= DescriptionLimit + |Ellipsis|
    ensures c.badge in ProviderTypeInfo.Values
    ensures c.telehealth <==> Truthy(t.telehealthAvailable) || OffersOnline(t.glanceAppointments)
    ensures c.name != "" && c.jobTitle != "" && c.profileUrl != ""
  {
    Card(
      OrDefault(t.name, "Professional Therapist"),
      OrDefault(t.jobTitle, "Licensed Therapist"),
      OrDefault(t.city, "") + ", " + OrDefault(t.state, ""),
      FeeText(t.feeIndividual),
      LanguagesText(t.languages),
      Telehealth(t.telehealthAvailable, t.glanceAppointments),
      SpecialtyTags(t.specialties),
      DescriptionText(t.descriptionPreview),
      ExplanationFor(t.rankingExplanation),
      BadgeFor(t.providerType),
      OrDefault(t.profileUrl, "#"))
  }
}

/**
 * The client side of the search page: the form's page clamp, the request body it posts, the
 * CSV it downloads, the website text it shows, and the body of its bulk-save request.
 */
module SearchPage {
  import opened Wrappers
  import opened Text
  import opened Json
  import opened Leads
  import opened Csv
  import opened PlacesRequest
  import opened BulkSave
  import opened Pagination
  import opened Enrichment
  import opened PlacesSearch

  /** The search form's state. `pages` is a JavaScript number. */
  datatype SearchForm = SearchForm(keyword: string, city: string, country: string, pages: JsNumber, enrich: bool)

  /** `defaultForm`. */
  const DefaultForm := SearchForm("diş kliniği", "İstanbul", "Türkiye", Finite(1.0), false)

  /** `Math.min(3, Math.max(1, n))`; NaN passes through both. */
  function ClampPages(n: JsNumber): (r: JsNumber)
    ensures r.NaN? <==> n.NaN?
    ensures !n.NaN? ==> r.Finite? && 1.0 <= r.value <= 3.0
    ensures n.Finite? && 1.0 <= n.value <= 3.0 ==> r == n
    ensures n.Finite? && n.value < 1.0 ==> r == Finite(1.0)
    ensures n.Finite? && n.value > 3.0 ==> r == Finite(3.0)
  {
    match n
    case NaN => NaN
    case PositiveInfinity => Finite(3.0)
    case NegativeInfinity => Finite(1.0)
    case Finite(x) => Finite(if x < 1.0 then 1.0 else if x > 3.0 then 3.0 else x)
  }

  /** Clamping a clamped value changes nothing. */
  lemma ClampPagesIdempotent(n: JsNumber)
    ensures ClampPages(ClampPages(n)) == ClampPages(n)
  {
  }

  /** A whole number of pages clamps to a page count the endpoint accepts. */
  lemma ClampedIntegerIsPageCount(n: JsNumber)
    requires IsInteger(n) || n.PositiveInfinity? || n.NegativeInfinity?
    ensures IsPageCount(ClampPages(n))
  {
    var r := ClampPages(n);
    if n.Finite? && 1.0 <= n.value <= 3.0 {
      assert r == n;
    } else {
      assert r == Finite(1.0) || r == Finite(3.0);
    }
  }

  /** `JSON.stringify` of a number: NaN and the infinities are written as null. */
  function NumberJson(n: JsNumber): (j: Json)
    ensures n.Finite? ==> j == JNumber(n.value)
    ensures !n.Finite? ==> j == JNull
  {
    if n.Finite? then JNumber(n.value) else JNull
  }

  /** The body `handleSearch` posts. */
  function SearchBody(form: SearchForm): Json {
    JObject(map["keyword" := JString(form.keyword), "city" := JString(form.city),
                "country" := JString(form.country), "pages" := NumberJson(form.pages),
                "enrich" := JBool(form.enrich)])
  }

  /**
   * The endpoint accepts the posted form exactly when the three texts are non-empty and the
   * page count is a whole number in 1..3 or not finite (written as null, read as 1); it then
   * searches with the form's values.
   */
  lemma SearchBodyAccepted(form: SearchForm, numberOf: Json -> JsNumber)
    ensures ParseRequest(Some(SearchBody(form)), numberOf).Some? <==>
      form.keyword != "" && form.city != "" && form.country != ""
      && (!form.pages.Finite? || IsPageCount(form.pages))
    ensures ParseRequest(Some(SearchBody(form)), numberOf).Some? ==>
      && ParseRequest(Some(SearchBody(form)), numberOf).value
         == SearchRequest(form.keyword, form.city, form.country,
                          if form.pages.Finite? then form.pages.value.Floor as nat else 1, form.enrich)
  {
    var fields := BodyFields(Some(SearchBody(form)));
    assert fields == SearchBody(form).fields;
    assert Member(fields, "pages") == Some(NumberJson(form.pages));
    if !form.pages.Finite? {
      assert CoercePages(fields, numberOf) == Finite(1.0);
      assert IsPageCount(Finite(1.0));
    }
  }

  /** The default form is accepted and asks for one page without enrichment. */
  lemma DefaultFormAccepted(numberOf: Json -> JsNumber)
    ensures ParseRequest(Some(SearchBody(DefaultForm)), numberOf)
            == Some(SearchRequest(DefaultForm.keyword, DefaultForm.city, DefaultForm.country, 1, false))
  {
    SearchBodyAccepted(DefaultForm, numberOf);
  }

  /** The header line of the download. */
  const CsvHeader: seq<string> := ["Name", "Address", "Phone", "Website", "Rating", "City", "Country"]

  /** `typeof rating === 'number' ? rating.toString() : ''`; `numberText` is the number's `toString`. */
  function RatingText(rating: Option<real>, numberText: real -> string): (t: string)
    ensures rating.None? ==> t == ""
    ensures rating.Some? ==> t == numberText(rating.value)
  {
    if rating.Some? then numberText(rating.value) else ""
  }

  /** The CSV values of one result: name, address, phone, website, rating, city, country. */
  function CsvRow(result: Lead, numberText: real -> string): (row: seq<string>)
    ensures |row| == |CsvHeader| == 7
    ensures row[0] == result.name && row[5] == result.city && row[6] == result.country
    ensures row[1] == result.address.GetOr("") && row[2] == result.phone.GetOr("")
    ensures row[3] == result.website.GetOr("") && row[4] == RatingText(result.rating, numberText)
  {
    [result.name, result.address.GetOr(""), result.phone.GetOr(""), result.website.GetOr(""),
     RatingText(result.rating, numberText), result.city, result.country]
  }

  /** `results.map(...)` into CSV values. */
  function CsvRows(results: seq<Lead>, numberText: real -> string): (rows: seq<seq<string>>)
    ensures |rows| == |results|
    ensures forall i :: 0 <= i < |results| ==> rows[i] == CsvRow(results[i], numberText)
  {
    seq(|results|, i requires 0 <= i < |results| => CsvRow(results[i], numberText))
  }

  /** The text `downloadCsv` saves; None when there are no results and nothing is saved. */
  function DownloadCsv(results: seq<Lead>, numberText: real -> string): (csv: Option<string>)
    ensures csv.None? <==> results == []
  {
    if |results| == 0 then None else Some(RenderRows([CsvHeader] + CsvRows(results, numberText)))
  }

  /**
   * Reading the download back gives the header and then one line of seven values per result,
   * in result order.
   */
  lemma DownloadCsvReadsBack(results: seq<Lead>, numberText: real -> string)
    requires results != []
    ensures ParseRows(DownloadCsv(results, numberText).value).Some?
    ensures |ParseRows(DownloadCsv(results, numberText).value).value| == |results| + 1
    ensures ParseRows(DownloadCsv(results, numberText).value).value[0] == CsvHeader
    ensures forall i :: 0 <= i < |results| ==>
      ParseRows(DownloadCsv(results, numberText).value).value[i + 1] == CsvRow(results[i], numberText)
  {
    var rows := [CsvHeader] + CsvRows(results, numberText);
    forall i | 0 <= i < |rows| ensures |rows[i]| >= 1 {
      if i > 0 {
        assert rows[i] == CsvRow(results[i - 1], numberText);
      }
    }
    ParseRowsRender(rows);
  }

  /** `website.replace(/^https?:\/\//, '')` */
  function StripScheme(s: string): (r: string)
    ensures StartsWith(s, "https://") ==> r == s[8..]
    ensures StartsWith(s, "http://") ==> r == s[7..]
    ensures !StartsWith(s, "http://") && !StartsWith(s, "https://") ==> r == s
  {
    if StartsWith(s, "https://") then
      assert s[..7][4] == 's';
      s[8..]
    else if StartsWith(s, "http://") then s[7..]
    else s
  }

  /** Only one scheme prefix is removed: the rest of the address comes back whatever it starts with. */
  lemma StripSchemeOnce(rest: string)
    ensures StripScheme("http://" + rest) == rest
    ensures StripScheme("https://" + rest) == rest
  {
    assert ("http://" + rest)[..7] == "http://";
    assert ("http://" + rest)[7..] == rest;
    assert ("https://" + rest)[..8] == "https://";
    assert ("https://" + rest)[8..] == rest;
  }

  /** The website cell of the table: the address without its scheme, or `-` when there is none. */
  function WebsiteCell(website: Option<string>): (cell: string)
    ensures website.None? || website == Some("") ==> cell == "-"
    ensures website.Some? && website.value != "" ==> cell == StripScheme(website.value)
  {
    if website.Some? && website.value != "" then StripScheme(website.value) else "-"
  }

  /** A JSON object field for an optional value, left out when the value is absent (`JSON.stringify` drops undefined). */
  function WithString(m: map<string, Json>, key: string, v: Option<string>): (r: map<string, Json>)
    ensures v.None? ==> r == m
    ensures v.Some? ==> r == m[key := JString(v.value)]
  {
    if v.Some? then m[key := JString(v.value)] else m
  }

  function WithNumber(m: map<string, Json>, key: string, v: Option<real>): (r: map<string, Json>)
    ensures v.None? ==> r == m
    ensures v.Some? ==> r == m[key := JNumber(v.value)]
  {
    if v.Some? then m[key := JNumber(v.value)] else m
  }

  /** The fields every result is written with. */
  function RequiredJson(lead: Lead): map<string, Json> {
    map["placeId" := JString(lead.placeId), "name" := JString(lead.name),
        "sector" := JString(lead.sector), "city" := JString(lead.city),
        "country" := JString(lead.country)]
  }

  /** The fields of a result as `JSON.stringify` writes them. */
  function LeadFields(lead: Lead): map<string, Json> {
    var withText := WithString(WithString(WithString(RequiredJson(lead), "address", lead.address), "phone", lead.phone), "website", lead.website);
    WithNumber(WithNumber(WithNumber(withText, "rating", lead.rating), "lat", lead.lat), "lng", lead.lng)
  }

  /** One result as `JSON.stringify` writes it. */
  function LeadJson(lead: Lead): Json {
    JObject(LeadFields(lead))
  }

  /** The optional-field steps of `LeadFields`, in order. */
  function Stages(lead: Lead): seq<map<string, Json>> {
    var m0 := RequiredJson(lead);
    var m1 := WithString(m0, "address", lead.address);
    var m2 := WithString(m1, "phone", lead.phone);
    var m3 := WithString(m2, "website", lead.website);
    var m4 := WithNumber(m3, "rating", lead.rating);
    var m5 := WithNumber(m4, "lat", lead.lat);
    [m0, m1, m2, m3, m4, m5, WithNumber(m5, "lng", lead.lng)]
  }

  /** A key none of the optional steps writes keeps what the required fields give it. */
  lemma OptionalStepsKeep(lead: Lead, k: string)
    requires k != "address" && k != "phone" && k != "website" && k != "rating" && k != "lat" && k != "lng"
    ensures k in LeadFields(lead) <==> k in RequiredJson(lead)
    ensures k in RequiredJson(lead) ==> LeadFields(lead)[k] == RequiredJson(lead)[k]
  {
    var st := Stages(lead);
    assert st[6] == LeadFields(lead);
  }

  /** The required fields of the written result hold the result's texts. */
  lemma LeadFieldsRequired(lead: Lead)
    ensures "placeId" in LeadFields(lead) && LeadFields(lead)["placeId"] == JString(lead.placeId)
    ensures "name" in LeadFields(lead) && LeadFields(lead)["name"] == JString(lead.name)
    ensures "sector" in LeadFields(lead) && LeadFields(lead)["sector"] == JString(lead.sector)
    ensures "city" in LeadFields(lead) && LeadFields(lead)["city"] == JString(lead.city)
    ensures "country" in LeadFields(lead) && LeadFields(lead)["country"] == JString(lead.country)
  {
    OptionalStepsKeep(lead, "placeId");
    OptionalStepsKeep(lead, "name");
    OptionalStepsKeep(lead, "sector");
    OptionalStepsKeep(lead, "city");
    OptionalStepsKeep(lead, "country");
  }

  /** The text fields the result has are written as texts, and those it lacks are left out. */
  lemma LeadFieldsTexts(lead: Lead)
    ensures IsOptionalString(LeadFields(lead), "address") && OptionalString(LeadFields(lead), "address") == lead.address
    ensures IsOptionalString(LeadFields(lead), "phone") && OptionalString(LeadFields(lead), "phone") == lead.phone
    ensures IsOptionalString(LeadFields(lead), "website") && OptionalString(LeadFields(lead), "website") == lead.website
  {
    var st := Stages(lead);
    assert st[6] == LeadFields(lead);
    forall k | k in {"address", "phone", "website"}
      ensures (k in st[6] <==> k in st[3]) && (k in st[3] ==> st[6][k] == st[3][k])
    {
      assert k != "rating" && k != "lat" && k != "lng";
    }
    assert "address" !in st[0] && "phone" !in st[0] && "website" !in st[0];
    assert "address" != "phone" && "address" != "website" && "phone" != "website";
  }

  /** The number fields the result has are written as numbers, and those it lacks are left out. */
  lemma LeadFieldsNumbers(lead: Lead)
    ensures IsOptionalNumber(LeadFields(lead), "rating") && OptionalNumber(LeadFields(lead), "rating") == lead.rating
    ensures IsOptionalNumber(LeadFields(lead), "lat") && OptionalNumber(LeadFields(lead), "lat") == lead.lat
    ensures IsOptionalNumber(LeadFields(lead), "lng") && OptionalNumber(LeadFields(lead), "lng") == lead.lng
  {
    var st := Stages(lead);
    assert st[6] == LeadFields(lead);
    forall k | k in {"rating", "lat", "lng"}
      ensures k !in st[3]
    {
      assert k !in st[0];
      assert k != "address" && k != "phone" && k != "website";
    }
    assert "rating" != "lat" && "rating" != "lng" && "lat" != "lng";
  }

  /** The body `handleBulkSave` posts; None when there are no results and nothing is posted. */
  function BulkSaveBody(results: seq<Lead>): (body: Option<Json>)
    ensures body.None? <==> results == []
  {
    if |results| == 0 then None
    else Some(JObject(map["items" := JArray(seq(|results|, i requires 0 <= i < |results| => LeadJson(results[i])))]))
  }

  /** The five required texts of a result are non-empty. */
  predicate Saveable(lead: Lead) {
    lead.placeId != "" && lead.name != "" && lead.sector != "" && lead.city != "" && lead.country != ""
  }

  /** The endpoint's lead schema accepts a result exactly when its required texts are non-empty; the row stored is the result itself. */
  lemma LeadJsonSpec(lead: Lead)
    ensures ValidLead(LeadJson(lead)) <==> Saveable(lead)
    ensures ValidLead(LeadJson(lead)) ==> ToRow(LeadJson(lead)) == lead
  {
    LeadFieldsRequired(lead);
    LeadFieldsTexts(lead);
    LeadFieldsNumbers(lead);
  }

  /**
   * The bulk-save body of the results is valid exactly when there are results and each is
   * saveable, and the rows the endpoint then inserts are the results, in order.
   */
  lemma BulkSaveBodySpec(results: seq<Lead>)
    ensures ValidRequest(BulkSaveBody(results)) <==>
      results != [] && forall i :: 0 <= i < |results| ==> Saveable(results[i])
    ensures ValidRequest(BulkSaveBody(results)) ==> ToRows(ItemsOf(BulkSaveBody(results))) == results
  {
    if results != [] {
      var items := BulkSaveBody(results).value.fields["items"].elems;
      assert |items| == |results|;
      forall i | 0 <= i < |results| ensures ValidLead(items[i]) <==> Saveable(results[i]) {
        assert items[i] == LeadJson(results[i]);
        LeadJsonSpec(results[i]);
      }
      if ValidRequest(BulkSaveBody(results)) {
        assert ItemsOf(BulkSaveBody(results)) == items;
        forall i | 0 <= i < |results| ensures ToRows(items)[i] == results[i] {
          assert items[i] == LeadJson(results[i]);
          LeadJsonSpec(results[i]);
        }
      }
    }
  }

  /**
   * The leads a successful search answers with can be saved in bulk exactly when there is at
   * least one and none has an empty name: identifiers, sector, city and country are always
   * non-empty, but a provider record whose name is the empty string keeps it.
   */
  lemma SearchItemsSaveable(req: SearchRequest, pageReplies: seq<PageReply>, n: nat, detailReplies: seq<DetailReply>)
    requires req.keyword != "" && req.city != "" && req.country != ""
    requires 1 <= n <= |pageReplies|
    requires |detailReplies| >= MaxDetailTargets
    requires Respond(req, pageReplies, n, detailReplies).Items?
    ensures ValidRequest(BulkSaveBody(Respond(req, pageReplies, n, detailReplies).items)) <==>
      && Respond(req, pageReplies, n, detailReplies).items != []
      && forall i :: 0 <= i < |Respond(req, pageReplies, n, detailReplies).items| ==>
           Respond(req, pageReplies, n, detailReplies).items[i].name != ""
  {
    SearchItemsSpec(req, pageReplies, n, detailReplies);
    BulkSaveBodySpec(Respond(req, pageReplies, n, detailReplies).items);
  }
}

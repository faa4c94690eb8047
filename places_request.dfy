/**
 * The places-search request: the `pages` coercion applied to the parsed body and the request
 * schema (keyword, city and country non-empty strings, pages an integer in 1..3, enrich an
 * optional boolean defaulting to false).
 */
module PlacesRequest {
  import opened Wrappers
  import opened Json

  const MinPages := 1
  const MaxPages := 3

  datatype SearchRequest = SearchRequest(keyword: string, city: string, country: string, pages: nat, enrich: bool)

  /**
   * The own fields of the parsed body, as `{...body}` sees them. A body that failed to parse is
   * `null`; spreading null, a number or a boolean yields no field, and spreading a string or an
   * array yields only index keys, which the schema ignores.
   */
  function BodyFields(body: Option<Json>): map<string, Json> {
    if body.Some? && body.value.JObject? then body.value.fields else map[]
  }

  /**
   * `typeof body?.pages === 'number' ? body.pages : Number(body?.pages ?? 1)`.
   * `numberOf` is JavaScript's `Number(...)` on a string, array or object.
   */
  function CoercePages(fields: map<string, Json>, numberOf: Json -> JsNumber): (n: JsNumber)
    ensures Member(fields, "pages").None? ==> n == Finite(1.0)
    ensures Member(fields, "pages") == Some(JNull) ==> n == Finite(1.0)
    ensures forall x :: Member(fields, "pages") == Some(JNumber(x)) ==> n == Finite(x)
    ensures Member(fields, "pages") == Some(JBool(true)) ==> n == Finite(1.0)
    ensures Member(fields, "pages") == Some(JBool(false)) ==> n == Finite(0.0)
    ensures forall v :: Member(fields, "pages") == Some(v) && (v.JString? || v.JArray? || v.JObject?) ==> n == numberOf(v)
  {
    match Member(fields, "pages")
    case None => Finite(1.0)
    case Some(JNull) => Finite(1.0)
    case Some(JNumber(x)) => Finite(x)
    case Some(JBool(b)) => if b then Finite(1.0) else Finite(0.0)
    case Some(v) => numberOf(v)
  }

  /** `z.string().min(1)` on field `key`. */
  predicate IsNonEmptyString(fields: map<string, Json>, key: string) {
    key in fields && fields[key].JString? && |fields[key].s| >= 1
  }

  /** `z.boolean().optional()` on field `key`: missing or a boolean (null is refused). */
  predicate IsOptionalBool(fields: map<string, Json>, key: string) {
    key !in fields || fields[key].JBool?
  }

  /** `z.number().int().min(1).max(3)`. */
  predicate IsPageCount(n: JsNumber) {
    IsInteger(n) && MinPages as real <= n.value <= MaxPages as real
  }

  /** `requestSchema.safeParse({...body, pages: ...})`: None is the 400 answer. */
  function ParseRequest(body: Option<Json>, numberOf: Json -> JsNumber): (r: Option<SearchRequest>)
    ensures var fields := BodyFields(body);
      r.Some? <==>
        IsNonEmptyString(fields, "keyword") && IsNonEmptyString(fields, "city")
        && IsNonEmptyString(fields, "country") && IsOptionalBool(fields, "enrich")
        && IsPageCount(CoercePages(fields, numberOf))
    ensures r.Some? ==> var fields := BodyFields(body);
      && r.value.keyword == fields["keyword"].s && |r.value.keyword| >= 1
      && r.value.city == fields["city"].s && |r.value.city| >= 1
      && r.value.country == fields["country"].s && |r.value.country| >= 1
      && MinPages <= r.value.pages <= MaxPages
      && CoercePages(fields, numberOf) == Finite(r.value.pages as real)
      && r.value.enrich == ("enrich" in fields && fields["enrich"].b)
  {
    var fields := BodyFields(body);
    var pages := CoercePages(fields, numberOf);
    if IsNonEmptyString(fields, "keyword") && IsNonEmptyString(fields, "city")
       && IsNonEmptyString(fields, "country") && IsOptionalBool(fields, "enrich")
       && IsPageCount(pages)
    then
      var enrich := if "enrich" in fields then fields["enrich"].b else false;
      Some(SearchRequest(fields["keyword"].s, fields["city"].s, fields["country"].s,
                         pages.value.Floor, enrich))
    else None
  }
}

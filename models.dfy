/**
 * internal/app/api/v1/models/gist.go and error.go: the records the gists
 * API reads and writes, their JSON keys, the fields their `binding:"required"`
 * tags demand, and the error codes of internal/app/api/constants/errors.go.
 *
 * A JSON object is modelled as its string-valued members; a body that is
 * not such an object is `Malformed`.
 */
module Models {
  import opened Wrappers
  import opened Http

  const ErrUnknownErrorCode := "unknown-error"
  const ErrUnknownErrorMsg := "The service has encountered unexpected error that it was not able to handle."
  const ErrFailedToParseRequestJsonCode := "failed-to-parse-request-json"
  const ErrFailedToParseRequestJsonMsg := "Failed to parse JSON request content."

  /** The string members of a JSON object, by key. */
  type JsonObject = map<string, string>

  /** A request body as the JSON decoder sees it. */
  datatype JsonBody = Malformed | Object(members: JsonObject)

  // ---------------------------------------------------------------------
  // Error
  // ---------------------------------------------------------------------

  /** One API error: an application error code, a presentable message, a developer detail. */
  datatype Error = Error(code: string, message: string, detail: string)

  function ErrorToJson(e: Error): (o: JsonObject)
    ensures o.Keys == {"code", "message", "detail"}
    ensures o["code"] == e.code && o["message"] == e.message && o["detail"] == e.detail
  {
    map["code" := e.code, "message" := e.message, "detail" := e.detail]
  }

  // ---------------------------------------------------------------------
  // Gist: the body of POST and PUT
  // ---------------------------------------------------------------------

  datatype Gist = Gist(name: string, description: string, language: string, code: string)

  /** The keys whose `binding:"required"` tag makes them mandatory. */
  const GistRequired: set<string> := {"name", "language", "code"}

  /** name, language and code are required (non-empty); description is optional. */
  predicate ValidGist(g: Gist)
  {
    g.name != "" && g.language != "" && g.code != ""
  }

  function GistToJson(g: Gist): (o: JsonObject)
    ensures o.Keys == {"name", "description", "language", "code"}
    ensures o["name"] == g.name && o["description"] == g.description
    ensures o["language"] == g.language && o["code"] == g.code
  {
    map["name" := g.name, "description" := g.description, "language" := g.language, "code" := g.code]
  }

  /** Decoding ignores unknown members and leaves absent ones empty. */
  function GistFromJson(o: JsonObject): (g: Gist)
    ensures o.Keys == {} ==> g == Gist("", "", "", "")
  {
    Gist(Lookup(o, "name"), Lookup(o, "description"), Lookup(o, "language"), Lookup(o, "code"))
  }

  lemma GistRoundTrip(g: Gist)
    ensures GistFromJson(GistToJson(g)) == g
  {
  }

  /** A decoded gist is valid exactly when every required key is present and non-empty. */
  lemma ValidGistFromJson(o: JsonObject)
    ensures ValidGist(GistFromJson(o)) <==> forall k | k in GistRequired :: k in o && o[k] != ""
  {
    if ValidGist(GistFromJson(o)) {
      forall k | k in GistRequired
        ensures k in o && o[k] != ""
      {
        assert k == "name" || k == "language" || k == "code";
      }
    } else {
      assert !("name" in o && o["name"] != "") || !("language" in o && o["language"] != "")
          || !("code" in o && o["code"] != "");
    }
  }

  /**
   * gin's BindJSON into a Gist: a malformed body or one missing a required
   * member fails; otherwise the decoded gist.
   */
  function BindGist(body: JsonBody): (r: Option<Gist>)
    ensures r.Some? <==> body.Object? && forall k | k in GistRequired :: k in body.members && body.members[k] != ""
    ensures r.Some? ==> ValidGist(r.value)
    ensures r.Some? ==> && r.value.name == body.members["name"] && r.value.language == body.members["language"]
                        && r.value.code == body.members["code"]
                        && r.value.description == Lookup(body.members, "description")
  {
    if body.Malformed? then None
    else
      ValidGistFromJson(body.members);
      var g := GistFromJson(body.members);
      if ValidGist(g) then Some(g) else None
  }

  /** A gist sent as JSON binds back to itself exactly when it is valid. */
  lemma BindEncodedGist(g: Gist)
    ensures BindGist(Object(GistToJson(g))) == if ValidGist(g) then Some(g) else None
  {
    GistRoundTrip(g);
  }

  /** The empty object `{}` fails to bind. */
  lemma EmptyObjectFailsToBind()
    ensures BindGist(Object(map[])).None?
  {
  }

  // ---------------------------------------------------------------------
  // GistInfo: the summary the API answers with
  // ---------------------------------------------------------------------

  datatype GistInfo = GistInfo(id: string, name: string, description: string, language: string)

  /** id, name and language are required; description is optional. */
  predicate ValidGistInfo(i: GistInfo)
  {
    i.id != "" && i.name != "" && i.language != ""
  }

  function GistInfoToJson(i: GistInfo): (o: JsonObject)
    ensures o.Keys == {"id", "name", "description", "language"}
    ensures o["id"] == i.id && o["name"] == i.name
    ensures o["description"] == i.description && o["language"] == i.language
  {
    map["id" := i.id, "name" := i.name, "description" := i.description, "language" := i.language]
  }

  function GistInfoFromJson(o: JsonObject): GistInfo
  {
    GistInfo(Lookup(o, "id"), Lookup(o, "name"), Lookup(o, "description"), Lookup(o, "language"))
  }

  lemma GistInfoRoundTrip(i: GistInfo)
    ensures GistInfoFromJson(GistInfoToJson(i)) == i
  {
  }

  // ---------------------------------------------------------------------
  // GistDetails: the full record of one gist
  // ---------------------------------------------------------------------

  datatype GistDetails = GistDetails(id: string, name: string, description: string, language: string,
                                     code: string, createdAt: string, lastUpdated: string, lastAccessed: string)

  /** id, name, language, code and createdAt are required; the rest are optional. */
  predicate ValidGistDetails(d: GistDetails)
  {
    d.id != "" && d.name != "" && d.language != "" && d.code != "" && d.createdAt != ""
  }

  /** lastUpdated and lastAccessed are `omitempty`: an empty one is left out of the object. */
  function GistDetailsToJson(d: GistDetails): (o: JsonObject)
    ensures o.Keys == {"id", "name", "description", "language", "code", "createdAt"}
                      + (if d.lastUpdated == "" then {} else {"lastUpdated"})
                      + (if d.lastAccessed == "" then {} else {"lastAccessed"})
    ensures forall k | k in o :: o[k] == Lookup(DetailsMembers(d), k)
  {
    var o := map["id" := d.id, "name" := d.name, "description" := d.description, "language" := d.language,
                 "code" := d.code, "createdAt" := d.createdAt];
    var o := if d.lastUpdated == "" then o else o["lastUpdated" := d.lastUpdated];
    if d.lastAccessed == "" then o else o["lastAccessed" := d.lastAccessed]
  }

  /** Every member of a details record, empty ones included. */
  function DetailsMembers(d: GistDetails): JsonObject
  {
    map["id" := d.id, "name" := d.name, "description" := d.description, "language" := d.language,
        "code" := d.code, "createdAt" := d.createdAt, "lastUpdated" := d.lastUpdated, "lastAccessed" := d.lastAccessed]
  }

  function GistDetailsFromJson(o: JsonObject): GistDetails
  {
    GistDetails(Lookup(o, "id"), Lookup(o, "name"), Lookup(o, "description"), Lookup(o, "language"),
                Lookup(o, "code"), Lookup(o, "createdAt"), Lookup(o, "lastUpdated"), Lookup(o, "lastAccessed"))
  }

  /** Leaving an empty optional member out loses nothing: decoding restores it as "". */
  lemma GistDetailsRoundTrip(d: GistDetails)
    ensures GistDetailsFromJson(GistDetailsToJson(d)) == d
  {
    var o := GistDetailsToJson(d);
    assert Lookup(o, "lastUpdated") == d.lastUpdated;
    assert Lookup(o, "lastAccessed") == d.lastAccessed;
  }
}

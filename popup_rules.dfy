/**
 * The popup's pure decisions: the 8-column save payload, the CSV export, the model picked
 * when the provider changes, and whether the save button is enabled.
 */
module PopupRules {
  import opened Wrappers
  import opened Text
  import opened Records
  import opened RoleScoring

  /** The scraped profile; `profileUrl` is always the page's address. */
  datatype Profile = Profile(name: Option<string>, title: Option<string>, company: Option<string>, profileUrl: string)

  /** JavaScript's `v || fallback` for a string that may be missing: an empty string is falsy too. */
  function OrElse(v: Option<string>, fallback: string): (r: string)
    ensures v.Some? && v.value != "" ==> r == v.value
    ensures (v.None? || v.value == "") ==> r == fallback
  {
    if v.Some? && v.value != "" then v.value else fallback
  }

  /** `currentData.selectedRole?.title || currentData.profile.title || ''`. */
  function ChosenTitle(profile: Profile, selected: Option<Role>): string {
    OrElse(if selected.Some? then selected.value.title else None, OrElse(profile.title, ""))
  }

  /** `currentData.selectedRole?.company || currentData.profile.company || ''`. */
  function ChosenCompany(profile: Profile, selected: Option<Role>): string {
    OrElse(if selected.Some? then selected.value.company else None, OrElse(profile.company, ""))
  }

  /** The payload object `handleSave` builds. */
  function BuildPayload(profile: Profile, selected: Option<Role>, requestedAt: string,
                        followUp: Option<string>, tag: Option<string>, notes: Option<string>): Payload
  {
    Payload(
      OrElse(profile.name, ""),
      ChosenTitle(profile, selected),
      ChosenCompany(profile, selected),
      profile.profileUrl,
      requestedAt,
      OrElse(followUp, ""),
      OrElse(tag, ""),
      OrElse(notes, ""))
  }

  /**
   * The title is the selected role's when it has one, else the profile's, else empty; the
   * company follows the same rule; missing follow-up, tag and notes become empty strings.
   */
  lemma PayloadFallbacks(profile: Profile, selected: Option<Role>, requestedAt: string,
                         followUp: Option<string>, tag: Option<string>, notes: Option<string>)
    ensures var p := BuildPayload(profile, selected, requestedAt, followUp, tag, notes);
      && (selected.Some? && selected.value.title.Some? && selected.value.title.value != "" ==>
            p.title == selected.value.title.value)
      && ((selected.None? || selected.value.title.None? || selected.value.title.value == "") ==>
            p.title == OrElse(profile.title, ""))
      && (selected.Some? && selected.value.company.Some? && selected.value.company.value != "" ==>
            p.company == selected.value.company.value)
      && ((selected.None? || selected.value.company.None? || selected.value.company.value == "") ==>
            p.company == OrElse(profile.company, ""))
      && (p.title != "" <==>
            (selected.Some? && selected.value.title.Some? && selected.value.title.value != "")
            || (profile.title.Some? && profile.title.value != ""))
      && (followUp.None? ==> p.followUpDate == "")
      && (tag.None? ==> p.tag == "")
      && (notes.None? ==> p.notes == "")
      && p.profileUrl == profile.profileUrl && p.requestedAt == requestedAt
  {
  }

  /** `handleSave`: nothing is sent unless the Apps Script URL and token are both set. */
  function SaveRequest(settings: Settings, profile: Profile, selected: Option<Role>, requestedAt: string,
                       followUp: Option<string>, tag: Option<string>, notes: Option<string>): (r: Option<Payload>)
    ensures r.Some? <==> Configured(settings)
    ensures r.Some? ==> r.value == BuildPayload(profile, selected, requestedAt, followUp, tag, notes)
  {
    if settings.appsScriptUrl == "" || settings.token == "" then None
    else Some(BuildPayload(profile, selected, requestedAt, followUp, tag, notes))
  }

  /** The payload's columns in sheet order. */
  function PayloadFields(p: Payload): (fs: seq<string>)
    ensures |fs| == 8
  {
    [p.name, p.title, p.company, p.profileUrl, p.requestedAt, p.followUpDate, p.tag, p.notes]
  }

  // ---------------------------------------------------------------------------
  // CSV export

  const CsvHeader: seq<string> :=
    ["name", "title", "company", "profile_url", "requested_at", "follow_up_date", "tag", "notes"]

  /** `` `"${field}"` ``: the field between double quotes, with nothing escaped. */
  function Quoted(field: string): string {
    "\"" + field + "\""
  }

  /** `row.map(field => `"${field}"`).join(',')`. */
  function CsvLine(fields: seq<string>): string
    decreases |fields|
  {
    if fields == [] then ""
    else if |fields| == 1 then Quoted(fields[0])
    else Quoted(fields[0]) + "," + CsvLine(fields[1..])
  }

  /** The data row of `exportCsv`: the payload's fields, with `profileUrl || ''` and the export time. */
  function CsvRow(profile: Profile, selected: Option<Role>, exportedAt: string,
                  followUp: Option<string>, tag: Option<string>, notes: Option<string>): seq<string>
  {
    [OrElse(profile.name, ""), ChosenTitle(profile, selected), ChosenCompany(profile, selected),
     OrElse(Some(profile.profileUrl), ""), exportedAt,
     OrElse(followUp, ""), OrElse(tag, ""), OrElse(notes, "")]
  }

  /** `exportCsv`: "No data to export" without a profile, else the header line and the data line. */
  function ExportCsv(profile: Option<Profile>, selected: Option<Role>, exportedAt: string,
                     followUp: Option<string>, tag: Option<string>, notes: Option<string>): (r: Option<string>)
    ensures r.None? <==> profile.None?
  {
    match profile
    case None => None
    case Some(p) => Some(CsvLine(CsvHeader) + "\n" + CsvLine(CsvRow(p, selected, exportedAt, followUp, tag, notes)))
  }

  /** The exported row carries the same columns, in the same order, as the payload a save at that moment sends. */
  lemma CsvRowIsPayload(profile: Profile, selected: Option<Role>, at: string,
                        followUp: Option<string>, tag: Option<string>, notes: Option<string>)
    ensures CsvRow(profile, selected, at, followUp, tag, notes)
         == PayloadFields(BuildPayload(profile, selected, at, followUp, tag, notes))
  {
  }

  ghost predicate QuoteFree(s: string) {
    forall i :: 0 <= i < |s| ==> s[i] != '"'
  }

  /** The position of the first double quote of `s`, or `|s|` when there is none. */
  function QuoteAt(s: string): (n: nat)
    ensures n <= |s|
    ensures n < |s| ==> s[n] == '"'
    ensures QuoteFree(s[..n])
  {
    if s == [] then 0
    else if s[0] == '"' then 0
    else
      var n := 1 + QuoteAt(s[1..]);
      assert s[..n] == [s[0]] + s[1..][..n - 1];
      n
  }

  /** Reads back a line of quoted fields separated by commas; `None` when it is not one. */
  function ParseCsvLine(line: string): Option<seq<string>>
    decreases |line|, 0
  {
    if line == [] || line[0] != '"' then None
    else
      var body := line[1..];
      var n := QuoteAt(body);
      if n == |body| then None
      else Prepend(body[..n], ParseAfterField(body[n + 1..]))
  }

  /** What follows a closing quote: the end of the line, or a comma and more fields. */
  function ParseAfterField(rest: string): Option<seq<string>>
    decreases |rest|, 1
  {
    if rest == [] then Some([])
    else if rest[0] == ',' then ParseCsvLine(rest[1..])
    else None
  }

  function Prepend(field: string, more: Option<seq<string>>): Option<seq<string>> {
    match more
    case Some(fs) => Some([field] + fs)
    case None => None
  }

  lemma {:induction false} QuoteAtQuoteFree(f: string, tail: string)
    requires QuoteFree(f)
    ensures QuoteAt(f + "\"" + tail) == |f|
    decreases |f|
  {
    if f != [] {
      assert (f + "\"" + tail)[1..] == f[1..] + "\"" + tail;
      QuoteAtQuoteFree(f[1..], tail);
    }
  }

  /** Reading a quoted quote-free field takes exactly that field and continues after it. */
  lemma ParseQuotedField(f: string, tail: string)
    requires QuoteFree(f)
    ensures ParseCsvLine(Quoted(f) + tail) == Prepend(f, ParseAfterField(tail))
  {
    var line := Quoted(f) + tail;
    var body := f + "\"" + tail;
    assert line[1..] == body;
    QuoteAtQuoteFree(f, tail);
    assert body[..|f|] == f;
    assert body[|f| + 1..] == tail;
  }

  /** A line of fields without double quotes reads back as exactly those fields. */
  lemma {:induction false} CsvLineRoundTrip(fields: seq<string>)
    requires fields != []
    requires forall k :: 0 <= k < |fields| ==> QuoteFree(fields[k])
    ensures ParseCsvLine(CsvLine(fields)) == Some(fields)
    decreases |fields|
  {
    var f := fields[0];
    if |fields| == 1 {
      ParseQuotedField(f, "");
      assert Quoted(f) + "" == Quoted(f) == CsvLine(fields);
      assert ParseAfterField("") == Some([]);
      assert fields == [f] + [];
    } else {
      var tail := "," + CsvLine(fields[1..]);
      assert CsvLine(fields) == Quoted(f) + tail;
      ParseQuotedField(f, tail);
      assert tail[0] == ',' && tail[1..] == CsvLine(fields[1..]);
      CsvLineRoundTrip(fields[1..]);
      assert ParseAfterField(tail) == Some(fields[1..]);
      assert fields == [f] + fields[1..];
    }
  }

  ghost predicate NewlineFree(s: string) {
    forall i :: 0 <= i < |s| ==> s[i] != '\n'
  }

  /** Fields that survive the export unchanged: no double quote and no line break in any of them. */
  ghost predicate Exportable(fields: seq<string>) {
    forall k :: 0 <= k < |fields| ==> QuoteFree(fields[k]) && NewlineFree(fields[k])
  }

  /** A line of fields has a line break exactly when one of its fields has one. */
  lemma {:induction false} CsvLineNewlineFree(fields: seq<string>)
    ensures NewlineFree(CsvLine(fields)) <==> forall k :: 0 <= k < |fields| ==> NewlineFree(fields[k])
    decreases |fields|
  {
    if fields != [] {
      var f := fields[0];
      var q := Quoted(f);
      assert forall i :: 0 <= i < |f| ==> q[i + 1] == f[i];
      assert q[0] == '"' && q[|q| - 1] == '"';
      if |fields| == 1 {
        assert CsvLine(fields) == q;
      } else {
        var rest := CsvLine(fields[1..]);
        var line := q + "," + rest;
        assert CsvLine(fields) == line;
        CsvLineNewlineFree(fields[1..]);
        assert forall i :: 0 <= i < |q| ==> line[i] == q[i];
        assert line[|q|] == ',';
        assert forall i :: 0 <= i < |rest| ==> line[|q| + 1 + i] == rest[i];
        assert forall k :: 1 <= k < |fields| ==> fields[k] == fields[1..][k - 1];
        if !NewlineFree(line) {
          var i :| 0 <= i < |line| && line[i] == '\n';
          if i < |q| {
            assert NewlineFree(q) ==> false;
          } else {
            assert rest[i - |q| - 1] == '\n';
          }
        }
      }
    }
  }

  /**
   * With no quote and no line break in any field, the export is exactly two lines, the
   * header and the payload's fields, and each reads back as the columns it was made from.
   */
  lemma ExportCsvLines(profile: Profile, selected: Option<Role>, at: string,
                       followUp: Option<string>, tag: Option<string>, notes: Option<string>)
    requires Exportable(PayloadFields(BuildPayload(profile, selected, at, followUp, tag, notes)))
    ensures ExportCsv(Some(profile), selected, at, followUp, tag, notes) ==
      Some(CsvLine(CsvHeader) + "\n" + CsvLine(PayloadFields(BuildPayload(profile, selected, at, followUp, tag, notes))))
    ensures NewlineFree(CsvLine(CsvHeader))
    ensures NewlineFree(CsvLine(PayloadFields(BuildPayload(profile, selected, at, followUp, tag, notes))))
    ensures ParseCsvLine(CsvLine(CsvHeader)) == Some(CsvHeader)
    ensures ParseCsvLine(CsvLine(PayloadFields(BuildPayload(profile, selected, at, followUp, tag, notes)))) ==
      Some(PayloadFields(BuildPayload(profile, selected, at, followUp, tag, notes)))
  {
    var fields := PayloadFields(BuildPayload(profile, selected, at, followUp, tag, notes));
    CsvRowIsPayload(profile, selected, at, followUp, tag, notes);
    CsvHeaderLine();
    CsvLineNewlineFree(fields);
    CsvLineRoundTrip(fields);
  }

  /** Lines made of exportable fields carry no line break and read back as those fields. */
  lemma ExportableLine(fields: seq<string>)
    requires fields != [] && Exportable(fields)
    ensures NewlineFree(CsvLine(fields))
    ensures ParseCsvLine(CsvLine(fields)) == Some(fields)
  {
    CsvLineNewlineFree(fields);
    CsvLineRoundTrip(fields);
  }

  /** No column name holds a double quote or a line break. */
  lemma HeaderExportable()
    ensures Exportable(CsvHeader)
  {
    assert QuoteFree("name") && NewlineFree("name");
    assert QuoteFree("title") && NewlineFree("title");
    assert QuoteFree("company") && NewlineFree("company");
    assert QuoteFree("profile_url") && NewlineFree("profile_url");
    assert QuoteFree("requested_at") && NewlineFree("requested_at");
    assert QuoteFree("follow_up_date") && NewlineFree("follow_up_date");
    assert QuoteFree("tag") && NewlineFree("tag");
    assert QuoteFree("notes") && NewlineFree("notes");
  }

  /** The header line is one line and reads back as the eight column names. */
  lemma CsvHeaderLine()
    ensures NewlineFree(CsvLine(CsvHeader))
    ensures ParseCsvLine(CsvLine(CsvHeader)) == Some(CsvHeader)
  {
    HeaderExportable();
    ExportableLine(CsvHeader);
  }

  /** Embedded quotes are not escaped: two different rows can export to the same line. */
  lemma UnescapedQuotesCollide()
    ensures CsvLine(["a\",\"b"]) == CsvLine(["a", "b"])
  {
  }

  // ---------------------------------------------------------------------------
  // Model options

  /** The `<option>` values `updateModelOptions` offers per provider; none for an unknown one. */
  function ModelOptions(provider: string): seq<string> {
    if provider == "groq" then ["llama3-8b", "llama3-70b", "mixtral-8x7b"]
    else if provider == "openai" then ["gpt-3.5-turbo", "gpt-4o-mini"]
    else if provider == "openrouter" then ["meta-llama/llama-3-8b-instruct", "mistralai/mistral-7b-instruct"]
    else []
  }

  /**
   * The model field's value after `updateModelOptions(provider)`: the current value if the
   * provider offers it, else the provider's first option; an emptied select has value ''.
   */
  function SelectModel(provider: string, current: string): (r: string)
    ensures current in ModelOptions(provider) ==> r == current
    ensures current !in ModelOptions(provider) && ModelOptions(provider) != [] ==> r == ModelOptions(provider)[0]
    ensures ModelOptions(provider) != [] ==> r in ModelOptions(provider)
    ensures ModelOptions(provider) == [] ==> r == ""
  {
    var options := ModelOptions(provider);
    if current in options then current
    else if |options| > 0 then options[0]
    else ""
  }

  /** Choosing again for the same provider keeps the choice. */
  lemma SelectModelIdempotent(provider: string, current: string)
    ensures SelectModel(provider, SelectModel(provider, current)) == SelectModel(provider, current)
  {
  }

  // ---------------------------------------------------------------------------
  // Save button

  /** `updateSaveButton`: enabled when a role is selected or the trimmed title or company is non-empty. */
  function SaveEnabled(selected: Option<Role>, titleField: string, companyField: string): bool {
    selected.Some? || Trim(titleField) != "" || Trim(companyField) != ""
  }

  /** The button is enabled exactly when a role is selected or the title or company field has a non-blank character. */
  lemma SaveEnabledIff(selected: Option<Role>, titleField: string, companyField: string)
    ensures SaveEnabled(selected, titleField, companyField) <==>
      selected.Some? || !AllSpace(titleField) || !AllSpace(companyField)
  {
    TrimEmptyIff(titleField);
    TrimEmptyIff(companyField);
  }
}

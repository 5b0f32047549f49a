/** The logic of verification/verifications.py: the domain taken from an
    organisation's URL, the projection of an enrichment (Apollo) answer, the
    age computed from birth-certificate entities, and the evidence payload
    that `employee_letter` assembles and stores as a pending verification. */
module Verifications {
  import opened Wrappers
  import opened JsonValues
  import opened Calendar
  import opened PyText
  import opened Models

  // ---------------------------------------------------------------------
  // extract_domain_from_url
  // ---------------------------------------------------------------------

  datatype UrlError = InvalidIPv6Url

  /** The characters `urlsplit` removes from the front of a URL
      (the C0 controls and the space). */
  predicate IsC0OrSpace(c: char) {
    c <= ' '
  }

  predicate IsSchemeChar(c: char) {
    IsAsciiLetter(c) || IsAsciiDigit(c) || c == '+' || c == '-' || c == '.'
  }

  predicate IsNetlocDelimiter(c: char) {
    c == '/' || c == '?' || c == '#'
  }

  /** What `urlsplit` has left once the leading C0 controls and spaces are
      stripped and every tab, carriage return and line feed is removed. */
  function Sanitize(url: string): (u: string)
    ensures '\t' !in u && '\r' !in u && '\n' !in u
    ensures forall c :: c in u ==> c in url
  {
    RemoveChar(RemoveChar(RemoveChar(LStrip(url, IsC0OrSpace), '\t'), '\r'), '\n')
  }

  /** Every character of a slice occurs in the whole. */
  lemma SliceCharsOccur(s: string, i: int, j: int)
    requires 0 <= i <= j <= |s|
    ensures forall c :: c in s[i..j] ==> c in s
  {
    forall c | c in s[i..j]
      ensures c in s
    {
      var k :| 0 <= k < j - i && s[i..j][k] == c;
      assert s[i + k] == c;
    }
  }

  /** The rest of the URL once a scheme is split off: a scheme is a run of
      scheme characters starting with an ASCII letter and ending at the
      first ':'. */
  function AfterScheme(u: string): (r: string)
    ensures forall c :: c in r ==> c in u
  {
    var i := Find(u, ':');
    if i > 0 && IsAsciiLetter(u[0]) && (forall k :: 0 <= k < i ==> IsSchemeChar(u[k])) then
      SliceCharsOccur(u, i + 1, |u|);
      u[i + 1..]
    else u
  }

  /** The index of the first '/', '?' or '#' in s, or |s|. */
  function FirstDelimiter(s: string): (i: nat)
    ensures i <= |s|
    ensures forall k :: 0 <= k < i ==> !IsNetlocDelimiter(s[k])
    ensures i < |s| ==> IsNetlocDelimiter(s[i])
  {
    if s == [] || IsNetlocDelimiter(s[0]) then 0 else 1 + FirstDelimiter(s[1..])
  }

  /** `urlparse(url).netloc`: the text after a leading "//" up to the first
      '/', '?' or '#', or "" when there is no "//"; a netloc with an
      unmatched '[' or ']' raises ValueError. */
  function Netloc(url: string): (r: Result<string, UrlError>)
    ensures r.Ok? ==> forall k :: 0 <= k < |r.value| ==> !IsNetlocDelimiter(r.value[k])
    ensures r.Ok? ==> ('[' in r.value <==> ']' in r.value)
    ensures r.Ok? ==> '\t' !in r.value && '\r' !in r.value && '\n' !in r.value
    ensures r.Err? ==> ('[' in url) || (']' in url)
  {
    var u := AfterScheme(Sanitize(url));
    if |u| >= 2 && u[..2] == "//" then
      var end := 2 + FirstDelimiter(u[2..]);
      var netloc := u[2..end];
      assert forall k :: 0 <= k < |netloc| ==> netloc[k] == u[2..][k];
      SliceCharsOccur(u, 2, end);
      if ('[' in netloc) != (']' in netloc) then
        Err(InvalidIPv6Url)
      else
        Ok(netloc)
    else
      Ok("")
  }

  /** The characters of Python's `lstrip("www.")`: a set, not a prefix. */
  predicate IsWwwChar(c: char) {
    c == 'w' || c == '.'
  }

  /** `extract_domain_from_url`: the netloc, or the whole URL when the netloc
      is empty, with every leading 'w' and '.' removed. The result is a
      suffix of that text, never starts with 'w' or '.', and only 'w' and
      '.' were removed in front of it. */
  function ExtractDomainFromUrl(url: string): (r: Result<string, UrlError>)
    ensures r.Ok? <==> Netloc(url).Ok?
    ensures r.Ok? ==>
      var base := if Netloc(url).value == "" then url else Netloc(url).value;
      && IsSuffix(r.value, base)
      && (r.value == [] || !IsWwwChar(r.value[0]))
      && (forall i :: 0 <= i < |base| - |r.value| ==> IsWwwChar(base[i]))
  {
    match Netloc(url)
    case Err(e) => Err(e)
    case Ok(netloc) =>
      var domain := if netloc == "" then url else netloc;
      Ok(LStrip(domain, IsWwwChar))
  }

  /** Applying the strip to an extracted domain changes nothing. */
  lemma DomainStripIsIdempotent(url: string)
    requires ExtractDomainFromUrl(url).Ok?
    ensures LStrip(ExtractDomainFromUrl(url).value, IsWwwChar) == ExtractDomainFromUrl(url).value
  {
    LStripIdempotent(if Netloc(url).value == "" then url else Netloc(url).value, IsWwwChar);
  }

  /** A character that may appear in a host the netloc split leaves whole. */
  predicate IsPlainHostChar(c: char) {
    !IsNetlocDelimiter(c) && c != '[' && c != ']' && c != '\t' && c != '\r' && c != '\n'
  }

  /** The host ends at the first delimiter, where the path begins. */
  lemma {:induction false} HostEndsAtPath(host: string, path: string)
    requires forall i :: 0 <= i < |host| ==> IsPlainHostChar(host[i])
    requires path == [] || IsNetlocDelimiter(path[0])
    ensures FirstDelimiter(host + path) == |host|
  {
    if host != [] {
      assert (host + path)[1..] == host[1..] + path;
      HostEndsAtPath(host[1..], path);
    } else {
      assert host + path == path;
    }
  }

  /** A URL that starts with a printable character and holds no tab, CR
      or LF is left as it is by the sanitising step. */
  lemma CleanUrlIsKept(url: string)
    requires url != [] && !IsC0OrSpace(url[0])
    requires '\t' !in url && '\r' !in url && '\n' !in url
    ensures Sanitize(url) == url
  {
  }

  /** The scheme and the "://" hold no tab, CR or LF. */
  lemma SchemePartIsClean(scheme: string)
    requires forall i :: 0 <= i < |scheme| ==> IsSchemeChar(scheme[i])
    ensures var s := scheme + "://"; '\t' !in s && '\r' !in s && '\n' !in s && ':' !in scheme
  {
    var s := scheme + "://";
    assert forall i :: 0 <= i < |s| ==> IsSchemeChar(s[i]) || s[i] == ':' || s[i] == '/';
  }

  lemma SlashesThen(rest: string)
    ensures |"//" + rest| >= 2 && ("//" + rest)[..2] == "//" && ("//" + rest)[2..] == rest
  {
  }

  /** A scheme of scheme characters starting with a letter is split off at
      the ':' that follows it. */
  lemma SchemeIsSplitOff(scheme: string, rest: string)
    requires scheme != [] && IsAsciiLetter(scheme[0])
    requires forall i :: 0 <= i < |scheme| ==> IsSchemeChar(scheme[i])
    ensures AfterScheme(scheme + [':'] + rest) == rest
  {
    var u := scheme + [':'] + rest;
    assert ':' !in scheme by {
      assert forall i :: 0 <= i < |scheme| ==> scheme[i] != ':';
    }
    FindAfterPrefix(scheme, ':', rest);
    assert forall k :: 0 <= k < |scheme| ==> u[k] == scheme[k];
    assert u[|scheme| + 1..] == rest;
  }

  /** When what follows the scheme is "//", a host and a path, the host is
      the netloc. */
  lemma AuthorityIsNetloc(url: string, host: string, path: string)
    requires AfterScheme(Sanitize(url)) == "//" + (host + path)
    requires forall i :: 0 <= i < |host| ==> IsPlainHostChar(host[i])
    requires path == [] || IsNetlocDelimiter(path[0])
    ensures Netloc(url) == Ok(host)
  {
    var u := "//" + (host + path);
    SlashesThen(host + path);
    HostEndsAtPath(host, path);
    assert u[2..2 + |host|] == host;
    assert '[' !in host && ']' !in host;
  }

  /** In `scheme://host` followed by a path, query or fragment, `urlparse`
      takes `host` as the netloc. */
  lemma SchemeUrlNetloc(scheme: string, host: string, path: string)
    requires scheme != [] && IsAsciiLetter(scheme[0])
    requires forall i :: 0 <= i < |scheme| ==> IsSchemeChar(scheme[i])
    requires forall i :: 0 <= i < |host| ==> IsPlainHostChar(host[i])
    requires path == [] || IsNetlocDelimiter(path[0])
    requires '\t' !in path && '\r' !in path && '\n' !in path
    ensures Netloc(scheme + "://" + host + path) == Ok(host)
  {
    var url := scheme + "://" + host + path;
    var after := "//" + (host + path);
    SchemePartIsClean(scheme);
    assert '\t' !in host && '\r' !in host && '\n' !in host;
    assert url[0] == scheme[0];
    CleanUrlIsKept(url);
    assert url == scheme + [':'] + after;
    SchemeIsSplitOff(scheme, after);
    AuthorityIsNetloc(url, host, path);
  }

  /** For a URL with a scheme and a non-empty host, the domain is the host
      with its leading 'w' and '.' stripped. */
  lemma SchemeUrlDomain(scheme: string, host: string, path: string)
    requires scheme != [] && IsAsciiLetter(scheme[0])
    requires forall i :: 0 <= i < |scheme| ==> IsSchemeChar(scheme[i])
    requires host != [] && forall i :: 0 <= i < |host| ==> IsPlainHostChar(host[i])
    requires path == [] || IsNetlocDelimiter(path[0])
    requires '\t' !in path && '\r' !in path && '\n' !in path
    ensures ExtractDomainFromUrl(scheme + "://" + host + path) == Ok(LStrip(host, IsWwwChar))
  {
    SchemeUrlNetloc(scheme, host, path);
  }

  /** The docstring's promise: "https://www." + host + "/" gives the host
      without its "www." prefix (and, since `lstrip` takes a set of
      characters, without any further leading 'w' or '.'). */
  lemma WwwPrefixIsRemoved(host: string)
    requires host != [] && forall i :: 0 <= i < |host| ==> IsPlainHostChar(host[i])
    ensures ExtractDomainFromUrl("https://www." + host + "/") == Ok(LStrip(host, IsWwwChar))
  {
    var full := "www." + host;
    assert forall i :: 0 <= i < |full| ==> IsPlainHostChar(full[i]);
    HttpsIsAScheme();
    SchemeUrlDomain("https", full, "/");
    HttpsWwwSpelling();
    RegroupUrl("https", "://", "www.", host, "/");
    WwwIsAllStripped();
    LStripDropsPrefix("www.", host, IsWwwChar);
  }

  lemma RegroupUrl(a: string, b: string, c: string, d: string, e: string)
    ensures a + b + (c + d) + e == (a + b + c) + d + e
  {
  }

  lemma HttpsWwwSpelling()
    ensures "https" + "://" + "www." == "https://www."
  {
  }

  lemma WwwIsAllStripped()
    ensures forall i :: 0 <= i < |"www."| ==> IsWwwChar("www."[i])
  {
  }

  lemma HttpsIsAScheme()
    ensures IsAsciiLetter("https"[0]) && forall i :: 0 <= i < |"https"| ==> IsSchemeChar("https"[i])
  {
  }

  /** A URL with no ':' and no leading "//" has an empty netloc, so the
      whole URL is stripped. */
  lemma BareHostIsStrippedWhole(url: string)
    requires |url| >= 2 && !IsC0OrSpace(url[0]) && url[..2] != "//"
    requires ':' !in url && '\t' !in url && '\r' !in url && '\n' !in url
    ensures ExtractDomainFromUrl(url) == Ok(LStrip(url, IsWwwChar))
  {
    assert Sanitize(url) == url;
    assert AfterScheme(url) == url;
  }

  /** A bare host spelled with one leading 'w' loses that 'w' and nothing
      else, whether or not the 'w' began "www.". */
  lemma LeadingWIsStripped(host: string)
    requires host != [] && !IsWwwChar(host[0]) && host[0] != '/'
    requires ':' !in host && '\t' !in host && '\r' !in host && '\n' !in host
    ensures ExtractDomainFromUrl("w" + host) == Ok(host)
  {
    var url := "w" + host;
    assert url[1..] == host;
    assert url[..2] == ['w', host[0]];
    BareHostIsStrippedWhole(url);
  }

  /** "wikipedia.org" becomes "ikipedia.org". */
  lemma WikipediaLosesItsW()
    ensures ExtractDomainFromUrl("wikipedia.org") == Ok("ikipedia.org")
  {
    IkipediaIsPlainHost();
    LeadingWIsStripped("ikipedia.org");
    WikipediaSpelling();
  }

  lemma IkipediaIsPlainHost()
    ensures var host := "ikipedia.org";
      && host != [] && !IsWwwChar(host[0]) && host[0] != '/'
      && ':' !in host && '\t' !in host && '\r' !in host && '\n' !in host
  {
  }

  lemma WikipediaSpelling()
    ensures "w" + "ikipedia.org" == "wikipedia.org"
  {
  }

  // ---------------------------------------------------------------------
  // extract_apollo_data
  // ---------------------------------------------------------------------

  const PersonKeys: set<string> := {"first_name", "last_name", "name", "linkedin_url", "title", "email", "organization"}
  const OrganizationKeys: set<string> := {"name", "website_url", "primary_phone", "phone"}

  /** The ten representative fields `extract_apollo_data` returns, named
      after its result keys. */
  datatype RepData = RepData(
    firstName: Json,                // "first_name"
    lastName: Json,                 // "last_name"
    fullName: Json,                 // "full_name"
    linkedinUrl: Json,              // "linkedin_url"
    title: Json,                    // "title"
    email: Json,                    // "email"
    organizationName: Json,         // "organization_name"
    organizationWebsiteUrl: Json,   // "organization_website_url"
    organizationPrimaryPhone: Json, // "organization_primary_phone"
    organizationPhone: Json)        // "organization_phone"
  {
    /** The primary phone is a mapping with a `number` and a `source`, so
        that `employee_letter` can split it. */
    predicate HasPhoneParts() {
      && organizationPrimaryPhone.JObj?
      && "number" in organizationPrimaryPhone.fields
      && "source" in organizationPrimaryPhone.fields
    }
  }

  /** The answer has a non-empty "people" list whose first entry is an object
      with the person keys and an "organization" object with its keys; every
      other answer makes the projection raise (KeyError, IndexError or
      TypeError). */
  predicate IsApolloAnswer(answer: Json) {
    && answer.JObj?
    && "people" in answer.fields
    && answer.fields["people"].JArr?
    && |answer.fields["people"].items| > 0
    && answer.fields["people"].items[0].JObj?
    && PersonKeys <= answer.fields["people"].items[0].fields.Keys
    && answer.fields["people"].items[0].fields["organization"].JObj?
    && OrganizationKeys <= answer.fields["people"].items[0].fields["organization"].fields.Keys
  }

  function FirstPerson(answer: Json): map<string, Json>
    requires IsApolloAnswer(answer)
  {
    answer.fields["people"].items[0].fields
  }

  /** `extract_apollo_data`: the first person of the answer, flattened with
      their organisation into the ten representative fields; None where the
      source raises. */
  function ExtractApolloData(answer: Json): (r: Option<RepData>)
    ensures r.Some? <==> IsApolloAnswer(answer)
    ensures r.Some? ==>
      var person := FirstPerson(answer);
      var organization := person["organization"].fields;
      && r.value.firstName == person["first_name"]
      && r.value.lastName == person["last_name"]
      && r.value.fullName == person["name"]
      && r.value.linkedinUrl == person["linkedin_url"]
      && r.value.title == person["title"]
      && r.value.email == person["email"]
      && r.value.organizationName == organization["name"]
      && r.value.organizationWebsiteUrl == organization["website_url"]
      && r.value.organizationPrimaryPhone == organization["primary_phone"]
      && r.value.organizationPhone == organization["phone"]
  {
    if !IsApolloAnswer(answer) then None
    else
      var person := FirstPerson(answer);
      var organization := person["organization"].fields;
      Some(RepData(
        person["first_name"], person["last_name"], person["name"],
        person["linkedin_url"], person["title"], person["email"],
        organization["name"], organization["website_url"],
        organization["primary_phone"], organization["phone"]))
  }

  // ---------------------------------------------------------------------
  // The age rule of birth_certificate
  // ---------------------------------------------------------------------

  datatype AgeError =
    | NoBirthEntities           // the extractor returned nothing
    | NotAnInteger(key: string) // int() raised on birth_date or birth_year
    | MonthNotText              // strptime was given a non-string
    | UnknownMonth(name: string) // strptime(name, "%B") raised
    | InvalidDate(date: Date)   // datetime(year, month, day) raised

  const MonthNames: seq<string> := [
    "january", "february", "march", "april", "may", "june",
    "july", "august", "september", "october", "november", "december"]

  /** `int(v)` for a JSON value: integers as they are, booleans as 0 or 1,
      strings parsed; null, lists and objects raise. */
  function PyInt(v: Json): Option<int> {
    match v
    case JInt(i) => Some(i)
    case JBool(b) => Some(if b then 1 else 0)
    case JStr(s) => ParseInt(s)
    case _ => None
  }

  /** `strptime(name, "%B").month`: the full English month name, in any
      letter case. */
  function MonthNumber(name: string): (m: Option<int>)
    ensures m.Some? <==> Lower(name) in MonthNames
    ensures m.Some? ==> 1 <= m.value <= 12 && MonthNames[m.value - 1] == Lower(name)
  {
    MonthIndex(Lower(name), 0)
  }

  function MonthIndex(lowered: string, from: nat): (m: Option<int>)
    requires from <= 12
    ensures m.Some? <==> lowered in MonthNames[from..]
    ensures m.Some? ==> from < m.value <= 12 && MonthNames[m.value - 1] == lowered
    decreases 12 - from
  {
    if from == 12 then None
    else if MonthNames[from] == lowered then Some(from + 1)
    else MonthIndex(lowered, from + 1)
  }

  /** The birth date read from the entities, failing at the first step that
      raises in the source's order: `int` of `birth_date` (default 1), `int`
      of `birth_year` (default 2000), the name in `birth_month` (default
      "January"), then the date itself. */
  function BirthDateOf(e: map<string, Json>): (r: Result<Date, AgeError>)
    ensures r.Ok? ==>
      && IsValidDate(r.value)
      && PyInt(GetOr(e, "birth_date", JInt(1))) == Some(r.value.day)
      && GetOr(e, "birth_month", JStr("January")).JStr?
      && MonthNumber(GetOr(e, "birth_month", JStr("January")).s) == Some(r.value.month)
      && PyInt(GetOr(e, "birth_year", JInt(2000))) == Some(r.value.year)
    ensures PyInt(GetOr(e, "birth_date", JInt(1))).None? ==> r == Err(NotAnInteger("birth_date"))
    ensures PyInt(GetOr(e, "birth_date", JInt(1))).Some? && PyInt(GetOr(e, "birth_year", JInt(2000))).None?
            ==> r == Err(NotAnInteger("birth_year"))
    ensures PyInt(GetOr(e, "birth_date", JInt(1))).Some? && PyInt(GetOr(e, "birth_year", JInt(2000))).Some?
            && !GetOr(e, "birth_month", JStr("January")).JStr?
            ==> r == Err(MonthNotText)
    ensures PyInt(GetOr(e, "birth_date", JInt(1))).Some? && PyInt(GetOr(e, "birth_year", JInt(2000))).Some?
            && GetOr(e, "birth_month", JStr("January")).JStr?
            && MonthNumber(GetOr(e, "birth_month", JStr("January")).s).None?
            ==> r == Err(UnknownMonth(GetOr(e, "birth_month", JStr("January")).s))
    ensures PyInt(GetOr(e, "birth_date", JInt(1))).Some? && PyInt(GetOr(e, "birth_year", JInt(2000))).Some?
            && GetOr(e, "birth_month", JStr("January")).JStr?
            && MonthNumber(GetOr(e, "birth_month", JStr("January")).s).Some?
            ==> var date := Date(PyInt(GetOr(e, "birth_year", JInt(2000))).value,
                                 MonthNumber(GetOr(e, "birth_month", JStr("January")).s).value,
                                 PyInt(GetOr(e, "birth_date", JInt(1))).value);
                r == if IsValidDate(date) then Ok(date) else Err(InvalidDate(date))
  {
    var day := PyInt(GetOr(e, "birth_date", JInt(1)));
    var month := GetOr(e, "birth_month", JStr("January"));
    var year := PyInt(GetOr(e, "birth_year", JInt(2000)));
    if day.None? then Err(NotAnInteger("birth_date"))
    else if year.None? then Err(NotAnInteger("birth_year"))
    else if !month.JStr? then Err(MonthNotText)
    else
      match MonthNumber(month.s)
      case None => Err(UnknownMonth(month.s))
      case Some(m) =>
        var date := Date(year.value, m, day.value);
        if IsValidDate(date) then Ok(date) else Err(InvalidDate(date))
  }

  /** Lexicographic order on dates, as Python compares (year, month, day). */
  predicate DateBefore(a: Date, b: Date) {
    a.year < b.year || (a.year == b.year && (a.month < b.month || (a.month == b.month && a.day < b.day)))
  }

  /** The age on `today`: the year difference, less one while the (month,
      day) of today sorts before that of the birth date. */
  function AgeOn(birth: Date, today: Date): int {
    today.year - birth.year
      - (if today.month < birth.month || (today.month == birth.month && today.day < birth.day) then 1 else 0)
  }

  /** The age is the number of birthdays reached: the anniversary in year
      birth + age is on or before today and the next one is after today. */
  lemma AgeCountsAnniversaries(birth: Date, today: Date)
    ensures !DateBefore(today, Date(birth.year + AgeOn(birth, today), birth.month, birth.day))
    ensures DateBefore(today, Date(birth.year + AgeOn(birth, today) + 1, birth.month, birth.day))
  {
  }

  /** That characterisation determines the age. */
  lemma AgeIsUnique(birth: Date, today: Date, k: int)
    requires !DateBefore(today, Date(birth.year + k, birth.month, birth.day))
    requires DateBefore(today, Date(birth.year + k + 1, birth.month, birth.day))
    ensures k == AgeOn(birth, today)
  {
  }

  /** Ages never decrease as the current date advances. */
  lemma AgeIsMonotone(birth: Date, today: Date, later: Date)
    requires !DateBefore(later, today)
    ensures AgeOn(birth, today) <= AgeOn(birth, later)
  {
  }

  /** Born on 15 March 2000: 23 on 14 March 2024, 24 on 15 March 2024. */
  lemma AnniversaryBoundary()
    ensures AgeOn(Date(2000, 3, 15), Date(2024, 3, 14)) == 23
    ensures AgeOn(Date(2000, 3, 15), Date(2024, 3, 15)) == 24
  {
  }

  /** Born on 29 February: in a year without that day the age goes up on
      1 March, not on 28 February. */
  lemma LeapDayBirthdayMovesToMarch(birth: Date, y: int)
    requires birth.month == 2 && birth.day == 29 && !IsLeapYear(y)
    ensures AgeOn(birth, Date(y, 2, 28)) == y - birth.year - 1
    ensures AgeOn(birth, Date(y, 3, 1)) == y - birth.year
  {
  }

  /** The age part of `birth_certificate`: the entities with "age" added, or
      the error the source raises. `today` is the clock reading. */
  function BirthCertificate(entities: Option<map<string, Json>>, today: Date): (r: Result<map<string, Json>, AgeError>)
    ensures entities.None? ==> r == Err(NoBirthEntities)
    ensures entities.Some? ==> (r.Ok? <==> BirthDateOf(entities.value).Ok?)
    ensures r.Ok? ==>
      && r.value.Keys == entities.value.Keys + {"age"}
      && r.value["age"] == JInt(AgeOn(BirthDateOf(entities.value).value, today))
      && (forall k :: k in entities.value && k != "age" ==> r.value[k] == entities.value[k])
  {
    match entities
    case None => Err(NoBirthEntities)
    case Some(e) =>
      match BirthDateOf(e)
      case Err(err) => Err(err)
      case Ok(birth) => Ok(e["age" := JInt(AgeOn(birth, today))])
  }

  /** With no birth fields at all the defaults give 1 January 2000. */
  lemma MissingBirthFieldsDefault(today: Date)
    ensures BirthDateOf(map[]) == Ok(Date(2000, 1, 1))
  {
    assert Lower("January") == "january";
  }

  /** A day that the month does not have is an error, not a date: the
      fields parse, yet `datetime` rejects the day. */
  lemma DayBeyondMonthIsRejected(e: map<string, Json>, year: int, month: int, day: int)
    requires PyInt(GetOr(e, "birth_date", JInt(1))) == Some(day)
    requires GetOr(e, "birth_month", JStr("January")).JStr?
    requires MonthNumber(GetOr(e, "birth_month", JStr("January")).s) == Some(month)
    requires PyInt(GetOr(e, "birth_year", JInt(2000))) == Some(year)
    requires 1 <= month <= 12 && day > DaysInMonth(year, month)
    ensures BirthDateOf(e) == Err(InvalidDate(Date(year, month, day)))
  {
  }

  /** The thirtieth of February never exists; the twenty-ninth exists in
      2000 and not in 1900. */
  lemma FebruaryLengths()
    ensures DaysInMonth(2000, 2) == 29 && DaysInMonth(1900, 2) == 28
    ensures forall y :: DaysInMonth(y, 2) < 30
  {
  }

  /** Month names are matched in any letter case. */
  lemma MonthNamesIgnoreCase()
    ensures MonthNumber("MARCH") == Some(3)
  {
    assert Lower("MARCH") == "march";
    assert MonthNames[2] == "march";
  }

  /** Abbreviated month names are not accepted by "%B". */
  lemma AbbreviatedMonthIsRejected()
    ensures MonthNumber("Mar") == None
  {
    assert Lower("Mar") == "mar";
    assert forall i | 0 <= i < |MonthNames| :: |MonthNames[i]| != 3 || MonthNames[i][2] != 'r';
  }

  // ---------------------------------------------------------------------
  // Payload assembly in employee_letter
  // ---------------------------------------------------------------------

  const NoSourceSentinel := "We could not find any source to verify the applicant\U{2019}s employment"

  datatype LetterError =
    | EnrichmentMalformed  // the enrichment answer or its primary phone could not be read
    | NoLetterEntities     // the extractor returned nothing
    | DuplicateToken       // the unique constraint on the token rejected the row

  /** `sources.employment_letter_representative`. */
  datatype LetterRepresentative = LetterRepresentative(
    representative: Json,  // "representative"
    position: Json,        // "representative_position"
    email: Json,           // "representative_email"
    phoneNumber: Json)     // "representative_phone_number"
  {
    function ToJson(): (j: Json)
      ensures j.JObj?
    {
      JObj(map[
        "representative" := representative,
        "representative_position" := position,
        "representative_email" := email,
        "representative_phone_number" := phoneNumber])
    }
  }

  /** `organization_primary_phone` split into its two parts. */
  datatype PrimaryPhone = PrimaryPhone(number: Json, source: Json)

  /** `sources.apollo_representative`: the enrichment fields, with the
      primary phone split. */
  datatype ApolloRepresentative = ApolloRepresentative(
    firstName: Json,
    lastName: Json,
    fullName: Json,
    linkedinUrl: Json,
    title: Json,
    email: Json,
    organizationName: Json,
    organizationWebsiteUrl: Json,
    organizationPhone: Json,
    organizationPrimaryPhone: PrimaryPhone)
  {
    function ToJson(): (j: Json)
      ensures j.JObj?
    {
      JObj(map[
        "first_name" := firstName,
        "last_name" := lastName,
        "full_name" := fullName,
        "linkedin_url" := linkedinUrl,
        "title" := title,
        "email" := email,
        "organization_name" := organizationName,
        "organization_website_url" := organizationWebsiteUrl,
        "organization_phone" := organizationPhone,
        "organization_primary_phone" := JObj(map[
          "number" := organizationPrimaryPhone.number,
          "source" := organizationPrimaryPhone.source])])
    }
  }

  /** The `sources` mapping: the letter's representative always, the
      enrichment's representative when there is one. */
  datatype Sources = Sources(letter: LetterRepresentative, apollo: Option<ApolloRepresentative>)
  {
    /** The values of the mapping, as `sources.values()` yields them. */
    function Values(): (vs: seq<Json>)
      ensures |vs| == if apollo.Some? then 2 else 1
      ensures vs[0] == letter.ToJson()
    {
      [letter.ToJson()] + (if apollo.Some? then [apollo.value.ToJson()] else [])
    }

    function ToJson(): Json {
      var withLetter := map["employment_letter_representative" := letter.ToJson()];
      JObj(if apollo.Some? then withLetter["apollo_representative" := apollo.value.ToJson()] else withLetter)
    }
  }

  /** `all(value is None for value in values)`. */
  predicate AllNone(values: seq<Json>) {
    forall i :: 0 <= i < |values| ==> values[i] == JNull
  }

  /** The `sources` field of the payload: the mapping, or the sentinel text
      that replaces it. */
  datatype SourcesField = SourceMap(sources: Sources) | NoSource
  {
    function ToJson(): Json {
      match this
      case SourceMap(s) => s.ToJson()
      case NoSource => JStr(NoSourceSentinel)
    }
  }

  /** The payload `employee_letter` returns and stores. */
  datatype EvidencePayload = EvidencePayload(
    token: string,         // "employee_letter_token"
    employmentDate: Json,  // "employment_date"
    currentStaff: Json,    // "current_staff"
    jobRole: Json,         // "job_role"
    salary: Json,          // "salary"
    companyName: Json,     // "company_name"
    companyWebsite: Json,  // "company_website"
    sources: SourcesField) // "sources"
  {
    function ToJson(): (j: Json)
      ensures j.JObj? && "employee_letter_token" in j.fields
      ensures j.fields["employee_letter_token"] == JStr(token)
    {
      JObj(map[
        "employment_date" := employmentDate,
        "current_staff" := currentStaff,
        "job_role" := jobRole,
        "salary" := salary,
        "company_name" := companyName,
        "company_website" := companyWebsite,
        "sources" := sources.ToJson(),
        "employee_letter_token" := JStr(token)])
    }
  }

  /** The representative entities of the letter, None where absent. */
  function LetterSource(e: map<string, Json>): LetterRepresentative {
    LetterRepresentative(
      Get(e, "representative"), Get(e, "representative_position"),
      Get(e, "representative_email"), Get(e, "representative_phone_number"))
  }

  /** The enrichment fields copied one for one, the primary phone split into
      its `number` and `source`. */
  function ApolloSource(rep: RepData): (a: ApolloRepresentative)
    requires rep.HasPhoneParts()
    ensures a.firstName == rep.firstName && a.lastName == rep.lastName && a.fullName == rep.fullName
    ensures a.linkedinUrl == rep.linkedinUrl && a.title == rep.title && a.email == rep.email
    ensures a.organizationName == rep.organizationName
    ensures a.organizationWebsiteUrl == rep.organizationWebsiteUrl
    ensures a.organizationPhone == rep.organizationPhone
    ensures a.organizationPrimaryPhone.number == rep.organizationPrimaryPhone.fields["number"]
    ensures a.organizationPrimaryPhone.source == rep.organizationPrimaryPhone.fields["source"]
  {
    var phone := rep.organizationPrimaryPhone.fields;
    ApolloRepresentative(
      rep.firstName, rep.lastName, rep.fullName, rep.linkedinUrl, rep.title, rep.email,
      rep.organizationName, rep.organizationWebsiteUrl, rep.organizationPhone,
      PrimaryPhone(phone["number"], phone["source"]))
  }

  /** The payload with the given `sources` field: the token and the six
      letter entities, None where absent (`employment_date` is read from
      `start_date`). */
  function LetterFields(token: string, e: map<string, Json>, sources: SourcesField): EvidencePayload {
    EvidencePayload(
      token, Get(e, "start_date"), Get(e, "current_staff"), Get(e, "job_role"),
      Get(e, "salary"), Get(e, "company_name"), Get(e, "company_website"), sources)
  }

  /** The "no source" check never holds as written: the letter's
      representative is a mapping, never None, so not every value of
      `sources` is None. */
  lemma SourcesAreNeverAllNone(s: Sources)
    ensures !AllNone(s.Values())
  {
    assert s.Values()[0].JObj?;
  }

  /** The payload `employee_letter` assembles for extracted entities `e` and
      the enrichment fields `rep` (None when the lookup found nothing). Every
      letter field is the extracted entity or None; the sources hold the
      letter's representative and, exactly when there is one, the
      enrichment's representative; the sentinel never replaces them. A
      primary phone that cannot be split raises. */
  function Payload(token: string, e: map<string, Json>, rep: Option<RepData>): (r: Result<EvidencePayload, LetterError>)
    ensures r.Err? <==> rep.Some? && !rep.value.HasPhoneParts()
    ensures r.Err? ==> r.error == EnrichmentMalformed
    ensures r.Ok? ==>
      && r.value.token == token
      && r.value.employmentDate == Get(e, "start_date")
      && r.value.currentStaff == Get(e, "current_staff")
      && r.value.jobRole == Get(e, "job_role")
      && r.value.salary == Get(e, "salary")
      && r.value.companyName == Get(e, "company_name")
      && r.value.companyWebsite == Get(e, "company_website")
      && r.value.sources.SourceMap?
      && r.value.sources.sources.letter == LetterSource(e)
      && (r.value.sources.sources.apollo.Some? <==> rep.Some?)
      && (rep.Some? ==> r.value.sources.sources.apollo.value == ApolloSource(rep.value))
  {
    if rep.Some? && !rep.value.HasPhoneParts() then Err(EnrichmentMalformed)
    else
      var sources := Sources(LetterSource(e), if rep.Some? then Some(ApolloSource(rep.value)) else None);
      SourcesAreNeverAllNone(sources);
      Ok(LetterFields(token, e, if AllNone(sources.Values()) then NoSource else SourceMap(sources)))
  }

  /** The enrichment fields the lookup yields: None when the lookup found
      nothing, an error when its answer cannot be projected. */
  function Enrichment(answer: Option<Json>): (r: Result<Option<RepData>, LetterError>)
    ensures r.Err? <==> answer.Some? && !IsApolloAnswer(answer.value)
    ensures r.Ok? ==> (r.value.Some? <==> answer.Some?)
    ensures r.Ok? && r.value.Some? ==> Some(r.value.value) == ExtractApolloData(answer.value)
  {
    match answer
    case None => Ok(None)
    case Some(a) =>
      match ExtractApolloData(a)
      case None => Err(EnrichmentMalformed)
      case Some(rep) => Ok(Some(rep))
  }

  /** What `employee_letter` computes before it stores anything: the
      enrichment is read first, then the entities, then the payload. */
  function LetterPayload(token: string, entities: Option<map<string, Json>>, answer: Option<Json>): (r: Result<EvidencePayload, LetterError>)
    ensures r.Err? <==>
      || (answer.Some? && !IsApolloAnswer(answer.value))
      || entities.None?
      || (answer.Some? && !ExtractApolloData(answer.value).value.HasPhoneParts())
    ensures r.Ok? ==> r.value.token == token
    ensures r.Ok? ==>
      && entities.Some?
      && r == Payload(token, entities.value, if answer.Some? then ExtractApolloData(answer.value) else None)
  {
    match Enrichment(answer)
    case Err(err) => Err(err)
    case Ok(rep) =>
      match entities
      case None => Err(NoLetterEntities)
      case Some(e) => Payload(token, e, rep)
  }

  /** The payload assembly and record creation of `employee_letter`. The
      token (`uuid4().hex`), the clock reading `now`, the extracted
      `entities` and the enrichment `answer` (None when the lookup was
      refused) are parameters. It builds the payload, adds the enrichment
      source to the nested `sources` in place, applies the "no source" check
      and inserts a pending row whose data is the payload under the same
      token; on any error nothing is stored. */
  method EmployeeLetter(db: VerificationTable, token: string, now: Instant, entities: Option<map<string, Json>>, answer: Option<Json>)
    returns (r: Result<EvidencePayload, LetterError>)
    requires db.Valid()
    modifies db
    ensures db.Valid()
    ensures r == (if LetterPayload(token, entities, answer).Err? then LetterPayload(token, entities, answer)
                  else if token in old(db.rows) then Err(DuplicateToken)
                  else LetterPayload(token, entities, answer))
    ensures r.Ok? ==> db.rows == old(db.rows)[token := NewRow(token, now, r.value.ToJson())]
    ensures r.Err? ==> db.rows == old(db.rows)
  {
    var rep: Option<RepData> := None;
    if answer.Some? {
      var extracted := ExtractApolloData(answer.value);
      if extracted.None? {
        return Err(EnrichmentMalformed);
      }
      rep := extracted;
    }
    var e: map<string, Json>;
    match entities {
      case None => return Err(NoLetterEntities);
      case Some(extractedEntities) => e := extractedEntities;
    }
    var sources := Sources(LetterSource(e), None);
    var data := LetterFields(token, e, SourceMap(sources));
    if rep.Some? {
      if !rep.value.HasPhoneParts() {
        return Err(EnrichmentMalformed);
      }
      // `sources` is the mapping nested in `data`: adding a key to it shows
      // in the payload.
      sources := sources.(apollo := Some(ApolloSource(rep.value)));
      data := data.(sources := SourceMap(sources));
    }
    if AllNone(sources.Values()) {
      data := data.(sources := NoSource);
    }
    assert LetterPayload(token, entities, answer) == Ok(data);
    var created := db.Create(token, now, data.ToJson());
    if !created {
      return Err(DuplicateToken);
    }
    r := Ok(data);
  }

  /** The row `employee_letter` stores is pending, unverified and undecided,
      is stored under the token the payload quotes as
      `employee_letter_token`, and holds the payload as its data. */
  lemma StoredRowMatchesPayload(token: string, now: Instant, entities: Option<map<string, Json>>, answer: Option<Json>)
    requires LetterPayload(token, entities, answer).Ok?
    ensures var payload := LetterPayload(token, entities, answer).value;
      var row := NewRow(token, now, payload.ToJson());
      && row.status == Pending && !row.isVerified && row.verifiedAt.None?
      && row.verificationData.fields["employee_letter_token"] == JStr(row.token)
      && row.verificationData == payload.ToJson()
  {
  }
}

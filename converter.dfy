/** `EnhancedJSONToConfigConverter`: turns a JSON-résumé document into the dictionary the Typst
    template reads. The converter object is a class whose fields are the entries of its
    `config_data` dictionary; each `convert_*` method updates them in place. */
module ResumeConverter {
  import opened PyText
  import opened JsonData
  import opened ConverterRules

  // ---------------------------------------------------------------- reading the document

  /** `json_data.get(key, [])` */
  function Items(data: Dict, key: string): Json { GetOr(data, key, Arr([])) }

  /** The dictionaries among the elements a `for` loop visits, in order; the converters skip
      every other element. */
  function Dicts(xs: seq<Json>): (r: seq<Dict>)
    ensures forall d :: d in r ==> Obj(d) in xs
    decreases |xs|
  {
    if xs == [] then []
    else
      var last := xs[|xs| - 1];
      Dicts(xs[..|xs| - 1]) + (if last.Obj? then [last.fields] else [])
  }

  /** Dictionaries are kept in the order of the list, across any split of it. */
  lemma {:induction false} DictsAppend(a: seq<Json>, b: seq<Json>)
    ensures Dicts(a + b) == Dicts(a) + Dicts(b)
    decreases |b|
  {
    if b == [] {
      assert a + b == a;
    } else {
      var init := b[..|b| - 1];
      var last := b[|b| - 1];
      var tail := if last.Obj? then [last.fields] else [];
      assert (a + b)[..|a + b| - 1] == a + init;
      assert (a + b)[|a + b| - 1] == last;
      assert Dicts(a + b) == Dicts(a + init) + tail;
      assert Dicts(b) == Dicts(init) + tail;
      DictsAppend(a, init);
    }
  }

  /** A list of dictionaries is kept whole, one entry per element. */
  lemma {:induction false} DictsAll(xs: seq<Json>)
    requires forall i :: 0 <= i < |xs| ==> xs[i].Obj?
    ensures |Dicts(xs)| == |xs|
    ensures forall i :: 0 <= i < |xs| ==> Dicts(xs)[i] == xs[i].fields
    decreases |xs|
  {
    if xs != [] {
      var init := xs[..|xs| - 1];
      DictsAll(init);
      assert Dicts(xs) == Dicts(init) + [xs[|xs| - 1].fields];
      forall i | 0 <= i < |xs| ensures Dicts(xs)[i] == xs[i].fields {
        if i < |init| {
          assert init[i] == xs[i];
        }
      }
    }
  }

  /** A list without dictionaries gives nothing. */
  lemma {:induction false} DictsNone(xs: seq<Json>)
    requires forall i :: 0 <= i < |xs| ==> !xs[i].Obj?
    ensures Dicts(xs) == []
    decreases |xs|
  {
    if xs != [] {
      DictsNone(xs[..|xs| - 1]);
    }
  }

  lemma {:induction false} DictsSnoc(xs: seq<Json>, i: nat)
    requires i < |xs|
    ensures Dicts(xs[..i + 1]) == Dicts(xs[..i]) + (if xs[i].Obj? then [xs[i].fields] else [])
  {
    assert xs[..i + 1][..i] == xs[..i];
  }

  /** `s.lower().replace(' ', '')`, the host part of a synthesised link. */
  function Slug(name: string): string { ReplaceAll(Lower(name), " ", "") }

  /** A slug has no space and no capital. */
  lemma {:induction false} SlugShape(name: string)
    ensures ' ' !in Slug(name)
    ensures forall c :: c in Slug(name) ==> !IsUpper(c)
  {
    ReplaceCharRemoves(Lower(name), ' ');
  }

  // ---------------------------------------------------------------- contacts

  /** `json_data.get("basics", {})` */
  function Basics(data: Dict): Json { GetOr(data, "basics", Obj([])) }

  /** A profile whose `network` can be lowered. */
  predicate ProfileInput(p: Json) { p.Obj? ==> GetOr(p.fields, "network", Str("")).Str? }

  function Profiles(b: Dict): Json { GetOr(b, "profiles", Arr([])) }

  function Url(b: Dict): Json { GetOr(b, "url", Null) }

  /** What `convert_contacts` needs not to raise: `basics` is a dictionary, `profiles` can be
      looped over, every network is a string, and a truthy `url` is a string. */
  predicate ContactsInput(data: Dict) {
    && Basics(data).Obj?
    && Iterable(Profiles(Basics(data).fields))
    && (forall p :: p in Iterate(Profiles(Basics(data).fields)) ==> ProfileInput(p))
    && (Truthy(Url(Basics(data).fields)) ==> Url(Basics(data).fields).Str?)
  }

  /** `f"{city}, {country}" if city and country else city or country` */
  function Address(codec: Codec, city: Json, country: Json): Json {
    if Truthy(city) && Truthy(country) then Str(codec.show(city) + ", " + codec.show(country)) else Or(city, country)
  }

  /** Name, title and e-mail. */
  function NamedContacts(b: Dict, c: Dict): (r: Dict)
    ensures Get(r, "name") == Some(GetOr(b, "name", Str("")))
    ensures Get(r, "title") == Some(GetOr(b, "label", Str("")))
    ensures Get(r, "email") == Some(GetOr(b, "email", Str("")))
    ensures forall k :: k != "name" && k != "title" && k != "email" ==> Get(r, k) == Get(c, k)
  {
    GetPut3(c, "name", GetOr(b, "name", Str("")), "title", GetOr(b, "label", Str("")), "email", GetOr(b, "email", Str("")));
    Put(Put(Put(c, "name", GetOr(b, "name", Str(""))), "title", GetOr(b, "label", Str(""))), "email", GetOr(b, "email", Str("")))
  }

  /** The entries `convert_contacts` sets before the profile loop. */
  const ContactKeys: set<string> := {"name", "title", "email", "address", "location"}

  /** The contact entries set before the profile loop. */
  function ContactFields(codec: Codec, b: Dict, c: Dict): Dict {
    var c1 := NamedContacts(b, c);
    var location := GetOr(b, "location", Obj([]));
    if location.Obj? then
      var city := GetOr(location.fields, "city", Str(""));
      var country := GetOr(location.fields, "countryCode", Str(""));
      Put(Put(c1, "address", Address(codec, city, country)), "location", Or(country, city))
    else c1
  }

  function Network(p: Dict): string
    requires GetOr(p, "network", Str("")).Str?
  {
    Lower(GetOr(p, "network", Str("")).s)
  }

  function LinkedinEntry(p: Dict): Json {
    Obj([Member("url", GetOr(p, "url", Str(""))), Member("displayText", GetOr(p, "username", Str("")))])
  }

  function GithubEntry(codec: Codec, p: Dict): Json {
    Obj([Member("url", GetOr(p, "url", Str(""))), Member("displayText", Str("@" + codec.show(GetOr(p, "username", Str("")))))])
  }

  /** One turn of the profile loop. */
  function ApplyProfile(codec: Codec, c: Dict, p: Json): Dict
    requires ProfileInput(p)
  {
    if !p.Obj? then c
    else if Network(p.fields) == "linkedin" then Put(c, "linkedin", LinkedinEntry(p.fields))
    else if Network(p.fields) == "github" then Put(c, "github", GithubEntry(codec, p.fields))
    else c
  }

  /** The profile loop over `ps`. */
  function ApplyProfiles(codec: Codec, c: Dict, ps: seq<Json>): Dict
    requires forall p :: p in ps ==> ProfileInput(p)
    decreases |ps|
  {
    if ps == [] then c
    else ApplyProfile(codec, ApplyProfiles(codec, c, ps[..|ps| - 1]), ps[|ps| - 1])
  }

  lemma {:induction false} ApplyProfilesSnoc(codec: Codec, c: Dict, ps: seq<Json>, i: nat)
    requires i < |ps| && forall p :: p in ps ==> ProfileInput(p)
    ensures forall p :: p in ps[..i + 1] ==> ProfileInput(p)
    ensures ApplyProfiles(codec, c, ps[..i + 1]) == ApplyProfile(codec, ApplyProfiles(codec, c, ps[..i]), ps[i])
  {
    assert ps[i] in ps;
    assert forall p :: p in ps[..i + 1] ==> p in ps;
    assert ps[..i + 1][..i] == ps[..i];
  }

  /** `for x in xs: d = f(d, x)`: the state a loop leaves that updates a dictionary once per
      element. */
  function FoldDict(f: (Dict, Json) --> Dict, d: Dict, xs: seq<Json>): Dict
    requires forall c, x :: x in xs ==> f.requires(c, x)
    decreases |xs|
  {
    if xs == [] then d
    else
      assert forall x :: x in xs[..|xs| - 1] ==> x in xs;
      f(FoldDict(f, d, xs[..|xs| - 1]), xs[|xs| - 1])
  }

  /** The profile loop is a fold of `ApplyProfile`. */
  lemma {:induction false} ProfilesFold(codec: Codec, c: Dict, ps: seq<Json>)
    requires forall p :: p in ps ==> ProfileInput(p)
    ensures FoldDict((d, p) requires ProfileInput(p) => ApplyProfile(codec, d, p), c, ps) == ApplyProfiles(codec, c, ps)
    decreases |ps|
  {
    if ps != [] {
      assert forall p :: p in ps[..|ps| - 1] ==> p in ps;
      ProfilesFold(codec, c, ps[..|ps| - 1]);
    }
  }

  /** The last profile of the network, if any: the one whose entry survives the loop. */
  function LastProfile(ps: seq<Json>, network: string): Option<Dict>
    requires forall p :: p in ps ==> ProfileInput(p)
    decreases |ps|
  {
    if ps == [] then None
    else
      var p := ps[|ps| - 1];
      assert p in ps && ProfileInput(p);
      if p.Obj? && Network(p.fields) == network then Some(p.fields)
      else
        assert forall q :: q in ps[..|ps| - 1] ==> q in ps;
        LastProfile(ps[..|ps| - 1], network)
  }

  /** `url.replace("https://", "").replace("http://", "")` */
  function StripScheme(url: string): string {
    ReplaceAll(ReplaceAll(url, "https://", ""), "http://", "")
  }

  function WebsiteEntry(url: string): Json {
    Obj([Member("url", Str(url)), Member("displayText", Str(StripScheme(url)))])
  }

  /** The website entry, set only for a truthy `url`. */
  function WithWebsite(b: Dict, c: Dict): Dict
    requires Truthy(Url(b)) ==> Url(b).Str?
  {
    if Truthy(Url(b)) then Put(c, "website", WebsiteEntry(Url(b).s))
    else c
  }

  /** The contacts dictionary after `convert_contacts`, from the one before. */
  function ContactsOf(codec: Codec, data: Dict, c: Dict): Dict
    requires ContactsInput(data)
  {
    var b := Basics(data).fields;
    WithWebsite(b, ApplyProfiles(codec, ContactFields(codec, b, c), Iterate(Profiles(b))))
  }

  /** One profile sets the LinkedIn entry, the GitHub entry, or nothing. */
  lemma {:induction false} ApplyProfileGet(codec: Codec, c: Dict, p: Json)
    requires ProfileInput(p)
    ensures Get(ApplyProfile(codec, c, p), "linkedin")
      == if p.Obj? && Network(p.fields) == "linkedin" then Some(LinkedinEntry(p.fields)) else Get(c, "linkedin")
    ensures Get(ApplyProfile(codec, c, p), "github")
      == if p.Obj? && Network(p.fields) == "github" then Some(GithubEntry(codec, p.fields)) else Get(c, "github")
    ensures forall k :: k != "linkedin" && k != "github" ==> Get(ApplyProfile(codec, c, p), k) == Get(c, k)
  {
    if p.Obj? && Network(p.fields) == "linkedin" {
      var e := LinkedinEntry(p.fields);
      GetPutOther(c, "linkedin", e, "github");
      forall k | k != "linkedin" ensures Get(Put(c, "linkedin", e), k) == Get(c, k) {
        GetPutOther(c, "linkedin", e, k);
      }
    } else if p.Obj? && Network(p.fields) == "github" {
      var e := GithubEntry(codec, p.fields);
      GetPutOther(c, "github", e, "linkedin");
      forall k | k != "github" ensures Get(Put(c, "github", e), k) == Get(c, k) {
        GetPutOther(c, "github", e, k);
      }
    }
  }

  /** The profile loop sets the LinkedIn and GitHub entries from the last profile of each
      network, and changes no other entry. */
  lemma {:induction false} ProfilesResult(codec: Codec, c: Dict, ps: seq<Json>)
    requires forall p :: p in ps ==> ProfileInput(p)
    ensures Get(ApplyProfiles(codec, c, ps), "linkedin")
      == match LastProfile(ps, "linkedin") case Some(p) => Some(LinkedinEntry(p)) case None => Get(c, "linkedin")
    ensures Get(ApplyProfiles(codec, c, ps), "github")
      == match LastProfile(ps, "github") case Some(p) => Some(GithubEntry(codec, p)) case None => Get(c, "github")
    ensures forall k :: k != "linkedin" && k != "github" ==> Get(ApplyProfiles(codec, c, ps), k) == Get(c, k)
    decreases |ps|
  {
    if ps != [] {
      var init := ps[..|ps| - 1];
      var last := ps[|ps| - 1];
      assert forall p :: p in init ==> p in ps;
      assert last in ps;
      ProfilesResult(codec, c, init);
      ApplyProfileGet(codec, ApplyProfiles(codec, c, init), last);
    }
  }

  /** The entries before the loop: name, title and e-mail, then address and location when
      the location is a dictionary. No other entry changes. */
  lemma {:induction false} ContactFieldsGet(codec: Codec, b: Dict, c: Dict)
    ensures var r := ContactFields(codec, b, c);
      && Get(r, "name") == Some(GetOr(b, "name", Str("")))
      && Get(r, "title") == Some(GetOr(b, "label", Str("")))
      && Get(r, "email") == Some(GetOr(b, "email", Str("")))
    ensures var r := ContactFields(codec, b, c); var location := GetOr(b, "location", Obj([]));
      && (location.Obj? ==>
            var city := GetOr(location.fields, "city", Str(""));
            var country := GetOr(location.fields, "countryCode", Str(""));
            Get(r, "address") == Some(Address(codec, city, country)) && Get(r, "location") == Some(Or(country, city)))
      && (!location.Obj? ==> Get(r, "address") == Get(c, "address") && Get(r, "location") == Get(c, "location"))
    ensures forall k :: k !in ContactKeys ==> Get(ContactFields(codec, b, c), k) == Get(c, k)
  {
    var c1 := NamedContacts(b, c);
    var location := GetOr(b, "location", Obj([]));
    if location.Obj? {
      var city := GetOr(location.fields, "city", Str(""));
      var country := GetOr(location.fields, "countryCode", Str(""));
      GetPut2(c1, "address", Address(codec, city, country), "location", Or(country, city));
    }
  }

  /** Get after the profile loop and the website step, for an entry neither touches. */
  lemma {:induction false} ContactsOther(codec: Codec, data: Dict, c: Dict, k: string)
    requires ContactsInput(data)
    requires k != "linkedin" && k != "github" && k != "website"
    ensures var b := Basics(data).fields;
      Get(ContactsOf(codec, data, c), k) == Get(ContactFields(codec, b, c), k)
  {
    var b := Basics(data).fields;
    var c1 := ContactFields(codec, b, c);
    var ps := Iterate(Profiles(b));
    ProfilesResult(codec, c1, ps);
    WebsiteOther(b, ApplyProfiles(codec, c1, ps), k);
  }

  /** The website step changes no other entry. */
  lemma {:induction false} WebsiteOther(b: Dict, c: Dict, k: string)
    requires Truthy(Url(b)) ==> Url(b).Str?
    requires k != "website"
    ensures Get(WithWebsite(b, c), k) == Get(c, k)
  {
    if Truthy(Url(b)) {
      GetPutOther(c, "website", WebsiteEntry(Url(b).s), k);
    }
  }

  /** Name, title and e-mail come from `name`, `label` and `email`; the address and location
      are composed from the location's city and country code when the location is a
      dictionary, and are not touched otherwise. */
  lemma {:induction false} ContactsFields(codec: Codec, data: Dict, c: Dict)
    requires ContactsInput(data)
    ensures var b := Basics(data).fields; var r := ContactsOf(codec, data, c);
      && Get(r, "name") == Some(GetOr(b, "name", Str("")))
      && Get(r, "title") == Some(GetOr(b, "label", Str("")))
      && Get(r, "email") == Some(GetOr(b, "email", Str("")))
    ensures var b := Basics(data).fields; var r := ContactsOf(codec, data, c); var location := GetOr(b, "location", Obj([]));
      && (location.Obj? ==>
            var city := GetOr(location.fields, "city", Str(""));
            var country := GetOr(location.fields, "countryCode", Str(""));
            Get(r, "address") == Some(Address(codec, city, country)) && Get(r, "location") == Some(Or(country, city)))
      && (!location.Obj? ==> Get(r, "address") == Get(c, "address") && Get(r, "location") == Get(c, "location"))
  {
    var b := Basics(data).fields;
    ContactFieldsGet(codec, b, c);
    ContactsOther(codec, data, c, "name");
    ContactsOther(codec, data, c, "title");
    ContactsOther(codec, data, c, "email");
    ContactsOther(codec, data, c, "address");
    ContactsOther(codec, data, c, "location");
  }

  /** Both parts present: `city, country`; otherwise whichever is truthy. The location prefers
      the country. */
  lemma {:induction false} AddressRule(codec: Codec, city: string, country: string)
    requires codec.Valid()
    ensures city != [] && country != [] ==> Address(codec, Str(city), Str(country)) == Str(city + ", " + country)
    ensures city == [] ==> Address(codec, Str(city), Str(country)) == Str(country)
    ensures city != [] && country == [] ==> Address(codec, Str(city), Str(country)) == Str(city)
    ensures Or(Str(country), Str(city)) == if country != [] then Str(country) else Str(city)
  {
  }

  /** Past the profile loop only the website entry can change. */
  lemma {:induction false} ContactsAfterLoop(codec: Codec, data: Dict, c: Dict, k: string)
    requires ContactsInput(data) && k != "website"
    ensures var b := Basics(data).fields;
      Get(ContactsOf(codec, data, c), k) == Get(ApplyProfiles(codec, ContactFields(codec, b, c), Iterate(Profiles(b))), k)
  {
    var b := Basics(data).fields;
    WebsiteOther(b, ApplyProfiles(codec, ContactFields(codec, b, c), Iterate(Profiles(b))), k);
  }

  /** The GitHub entry shows the last GitHub profile's URL, and `@` and its username; without
      such a profile the entry is not touched. */
  lemma {:induction false} ContactsGithub(codec: Codec, data: Dict, c: Dict)
    requires ContactsInput(data)
    ensures var b := Basics(data).fields; var r := ContactsOf(codec, data, c);
      match LastProfile(Iterate(Profiles(b)), "github")
      case Some(p) =>
        Get(r, "github") == Some(Obj([Member("url", GetOr(p, "url", Str(""))),
                                      Member("displayText", Str("@" + codec.show(GetOr(p, "username", Str("")))))]))
      case None => Get(r, "github") == Get(c, "github")
  {
    var b := Basics(data).fields;
    ContactFieldsGet(codec, b, c);
    assert "github" !in ContactKeys;
    ProfilesAfter(codec, b, ContactFields(codec, b, c), Iterate(Profiles(b)));
  }

  /** The LinkedIn entry shows the last LinkedIn profile's URL and its username as it is;
      without such a profile the entry is not touched. */
  lemma {:induction false} ContactsLinkedin(codec: Codec, data: Dict, c: Dict)
    requires ContactsInput(data)
    ensures var b := Basics(data).fields; var r := ContactsOf(codec, data, c);
      match LastProfile(Iterate(Profiles(b)), "linkedin")
      case Some(p) => Get(r, "linkedin") == Some(LinkedinEntry(p))
      case None => Get(r, "linkedin") == Get(c, "linkedin")
  {
    var b := Basics(data).fields;
    ContactFieldsGet(codec, b, c);
    assert "linkedin" !in ContactKeys;
    ProfilesAfter(codec, b, ContactFields(codec, b, c), Iterate(Profiles(b)));
  }

  /** After the profile loop and the website step: each network's entry is the last
      profile's, or what it was before the loop. */
  lemma {:induction false} ProfilesAfter(codec: Codec, b: Dict, c: Dict, ps: seq<Json>)
    requires forall p :: p in ps ==> ProfileInput(p)
    requires Truthy(Url(b)) ==> Url(b).Str?
    ensures var r := WithWebsite(b, ApplyProfiles(codec, c, ps));
      match LastProfile(ps, "linkedin")
      case Some(p) => Get(r, "linkedin") == Some(LinkedinEntry(p))
      case None => Get(r, "linkedin") == Get(c, "linkedin")
    ensures var r := WithWebsite(b, ApplyProfiles(codec, c, ps));
      match LastProfile(ps, "github")
      case Some(p) => Get(r, "github") == Some(GithubEntry(codec, p))
      case None => Get(r, "github") == Get(c, "github")
  {
    WebsiteOther(b, ApplyProfiles(codec, c, ps), "linkedin");
    WebsiteOther(b, ApplyProfiles(codec, c, ps), "github");
    ProfilesResult(codec, c, ps);
  }

  /** The website step sets the website entry for a truthy `url` and nothing otherwise. */
  lemma {:induction false} WebsiteGet(b: Dict, c: Dict)
    requires Truthy(Url(b)) ==> Url(b).Str?
    ensures Get(WithWebsite(b, c), "website") == if Truthy(Url(b)) then Some(WebsiteEntry(Url(b).s)) else Get(c, "website")
  {
  }

  /** A truthy `url` gives a website entry displaying it without its scheme; otherwise the
      entry is not touched. */
  lemma {:induction false} ContactsWebsite(codec: Codec, data: Dict, c: Dict)
    requires ContactsInput(data)
    ensures var b := Basics(data).fields; var r := ContactsOf(codec, data, c);
      && (Truthy(Url(b)) ==> Get(r, "website") == Some(Obj([Member("url", Url(b)), Member("displayText", Str(StripScheme(Url(b).s)))])))
      && (!Truthy(Url(b)) ==> Get(r, "website") == Get(c, "website"))
  {
    var b := Basics(data).fields;
    ContactFieldsGet(codec, b, c);
    assert "website" !in ContactKeys;
    WebsiteAfter(codec, b, ContactFields(codec, b, c), Iterate(Profiles(b)));
  }

  /** The profile loop leaves the website entry to the website step. */
  lemma {:induction false} WebsiteAfter(codec: Codec, b: Dict, c: Dict, ps: seq<Json>)
    requires forall p :: p in ps ==> ProfileInput(p)
    requires Truthy(Url(b)) ==> Url(b).Str?
    ensures Get(WithWebsite(b, ApplyProfiles(codec, c, ps)), "website")
      == if Truthy(Url(b)) then Some(WebsiteEntry(Url(b).s)) else Get(c, "website")
  {
    WebsiteGet(b, ApplyProfiles(codec, c, ps));
    ProfilesResult(codec, c, ps);
  }

  lemma {:induction false} NoColonNoMatch(s: string, pat: string, k: nat)
    requires k < |pat| && pat[k] == ':' && ':' !in s
    ensures !Contains(s, pat)
  {
    forall i: nat ensures !OccursAt(s, pat, i) {
      if i + |pat| <= |s| {
        assert s[i..i + |pat|][k] == s[i + k];
        assert s[i + k] in s;
      }
    }
  }

  /** `https://host` and `http://host` display as `host`, and a text without a scheme is kept,
      for hosts without a colon. */
  lemma {:induction false} StripSchemeHost(host: string)
    requires ':' !in host
    ensures StripScheme("https://" + host) == host
    ensures StripScheme("http://" + host) == host
    ensures StripScheme(host) == host
  {
    NoColonNoMatch(host, "https://", 5);
    NoColonNoMatch(host, "http://", 4);
    ReplaceAllAbsent(host, "https://", "");
    ReplaceAllAbsent(host, "http://", "");
    ReplaceAllLeading(host, "https://", "");
    ReplaceAllLeading(host, "http://", "");
    HttpNotHttps(host);
    ReplaceAllAbsent("http://" + host, "https://", "");
    assert "" + host == host;
    assert ReplaceAll("https://" + host, "https://", "") == host;
    assert ReplaceAll("http://" + host, "https://", "") == "http://" + host;
  }

  /** `http://host` holds no `https://` when the host has no colon. */
  lemma {:induction false} HttpNotHttps(host: string)
    requires ':' !in host
    ensures !Contains("http://" + host, "https://")
  {
    var b := "http://" + host;
    forall i: nat ensures !OccursAt(b, "https://", i) {
      if i + 8 <= |b| {
        assert b[i..i + 8][5] == b[i + 5];
        if i == 0 {
          assert b[4] == ':';
          assert b[i..i + 8][4] != "https://"[4];
        } else if i == 1 {
          assert b[6] == '/';
        } else {
          assert b[i + 5] == host[i - 2];
          assert host[i - 2] in host;
        }
      }
    }
  }

  // ---------------------------------------------------------------- work experience

  predicate DateInput(v: Json) { !Truthy(v) || v.Str? }

  /** What one work entry needs: a string `name`, dates `_format_date` accepts, and highlights
      the tag helper accepts. */
  predicate JobInput(e: Dict) {
    && GetOr(e, "name", Str("")).Str?
    && DateInput(GetOr(e, "startDate", Str("")))
    && DateInput(GetOr(e, "endDate", Str("")))
    && TagInput(GetOr(e, "highlights", Arr([])))
  }

  function StrList(ts: seq<string>): (r: seq<Json>)
    ensures StrItems(r) && Texts(r) == ts
  {
    seq(|ts|, i requires 0 <= i < |ts| => Str(ts[i]))
  }

  /** `https://<slug>.com/`, the company link. */
  function CompanyLink(name: string): string { "https://" + Slug(name) + ".com/" }

  /** `https://<slug>.com`, the product link. */
  function ProductLink(name: string): string { "https://" + Slug(name) + ".com" }

  /** The job built from a work entry. */
  function Job(runtime: Runtime, e: Dict): Json
    requires JobInput(e)
  {
    var name := GetOr(e, "name", Str(""));
    Obj([
      Member("position", GetOr(e, "position", Str(""))),
      Member("company", Obj([Member("name", name), Member("link", Str(CompanyLink(name.s)))])),
      Member("product", Obj([Member("name", name), Member("link", Str(ProductLink(name.s)))])),
      Member("description", GetOr(e, "highlights", Arr([]))),
      Member("from", Str(FormatDate(GetOr(e, "startDate", Str(""))))),
      Member("to", Str(FormatDate(GetOr(e, "endDate", Str(""))))),
      Member("location", GetOr(e, "location", Str(""))),
      Member("tags", Arr(StrList(ExtractTags(runtime, GetOr(e, "highlights", Arr([]))))))
    ])
  }

  /** A job has the eight keys in order; it links the company and the product to the same host;
      its dates are empty exactly when the entry's are falsy; it has up to three tags, none
      exactly when the highlights are falsy. */
  lemma {:induction false} JobFields(runtime: Runtime, e: Dict)
    requires runtime.Valid() && JobInput(e)
    ensures var j := Job(runtime, e);
      && j.Obj? && Keys(j.fields) == ["position", "company", "product", "description", "from", "to", "location", "tags"]
      && (j.fields[4].value == Str([]) <==> !Truthy(GetOr(e, "startDate", Str(""))))
      && (j.fields[5].value == Str([]) <==> !Truthy(GetOr(e, "endDate", Str(""))))
      && j.fields[7].value.Arr? && |j.fields[7].value.items| <= 3
      && (j.fields[7].value.items == [] <==> !Truthy(GetOr(e, "highlights", Arr([]))))
      && (forall t :: t in j.fields[7].value.items ==> t.Str?)
  {
    var j := Job(runtime, e);
    assert Keys(j.fields) == ["position", "company", "product", "description", "from", "to", "location", "tags"];
    FormatDateFalsy(GetOr(e, "startDate", Str("")));
    FormatDateFalsy(GetOr(e, "endDate", Str("")));
    TagsCount(runtime, GetOr(e, "highlights", Arr([])));
  }

  /** One job per work entry, in order. */
  function Jobs(runtime: Runtime, ds: seq<Dict>): (r: seq<Json>)
    requires forall d :: d in ds ==> JobInput(d)
    ensures |r| == |ds| && forall k :: 0 <= k < |ds| ==> r[k] == Job(runtime, ds[k])
  {
    seq(|ds|, k requires 0 <= k < |ds| => Job(runtime, ds[k]))
  }

  predicate WorkInput(data: Dict) {
    && Iterable(Items(data, "work"))
    && forall x :: x in Iterate(Items(data, "work")) && x.Obj? ==> JobInput(x.fields)
  }

  /** The jobs `convert_work_experience` appends. */
  function WorkJobs(runtime: Runtime, data: Dict): seq<Json>
    requires WorkInput(data)
  {
    Jobs(runtime, Dicts(Iterate(Items(data, "work"))))
  }

  /** Both links name the same host, the name lowered without spaces; the company link
      alone ends with a slash. */
  lemma {:induction false} JobLinks(name: string)
    ensures CompanyLink(name) == ProductLink(name) + "/"
    ensures var host := CompanyLink(name)[8..|CompanyLink(name)| - 5];
      && CompanyLink(name)[..8] == "https://" && host == Slug(name)
      && ' ' !in host && forall c :: c in host ==> !IsUpper(c)
  {
    SlugShape(name);
    var l := CompanyLink(name);
    assert l[8..|l| - 5] == Slug(name);
  }

  // ---------------------------------------------------------------- education

  /** `json_data.get("education", [])`, replaced by its own `education` entry when it is a
      dictionary holding one. */
  function EducationItems(data: Dict): (r: Json)
    ensures var e := Items(data, "education"); !(e.Obj? && HasKey(e.fields, "education")) ==> r == e
  {
    var e := Items(data, "education");
    if e.Obj? && HasKey(e.fields, "education") then GetOr(e.fields, "education", Arr([])) else e
  }

  /** A value `_extract_year_from_date` accepts. */
  predicate YearInput(v: Json) { !Truthy(v) || v.Str? }

  /** A string, or a falsy value of any kind. */
  predicate StrOrFalsy(v: Json) { !Truthy(v) || v.Str? }

  /** `entry.get("startDate", "") or entry.get("date", "")` */
  function StartDate(e: Dict): Json { Or(GetOr(e, "startDate", Str("")), GetOr(e, "date", Str(""))) }

  /** `entry.get("endDate", "") or entry.get("date", "")` */
  function EndDate(e: Dict): Json { Or(GetOr(e, "endDate", Str("")), GetOr(e, "date", Str(""))) }

  /** What one education entry needs: a truthy institution is a string, and both dates are
      ones the year helper accepts. */
  predicate SchoolInput(e: Dict) {
    && StrOrFalsy(GetOr(e, "institution", Str("")))
    && YearInput(StartDate(e))
    && YearInput(EndDate(e))
  }

  /** `http://<slug>.edu` for a truthy institution, `""` otherwise. */
  function SchoolLink(institution: Json): string
    requires StrOrFalsy(institution)
  {
    if Truthy(institution) then "http://" + Slug(institution.s) + ".edu" else ""
  }

  /** The education entry built from one dictionary. */
  function School(e: Dict): Json
    requires SchoolInput(e)
  {
    var institution := GetOr(e, "institution", Str(""));
    var major := GetOr(e, "area", Str(""));
    Obj([
      Member("place", Obj([Member("name", institution), Member("link", Str(SchoolLink(institution)))])),
      Member("degree", Or(GetOr(e, "degree", Str("")), GetOr(e, "studyType", Str("")))),
      Member("major", major),
      Member("track", major),
      Member("from", Str(ExtractYear(StartDate(e)))),
      Member("to", Str(ExtractYear(EndDate(e)))),
      Member("location", GetOr(e, "location", Str("")))
    ])
  }

  /** One education entry per dictionary, in order. */
  function Schools(ds: seq<Dict>): (r: seq<Json>)
    requires forall d :: d in ds ==> SchoolInput(d)
    ensures |r| == |ds| && forall k :: 0 <= k < |ds| ==> r[k] == School(ds[k])
  {
    seq(|ds|, k requires 0 <= k < |ds| => School(ds[k]))
  }

  predicate EducationInput(data: Dict) {
    && Iterable(EducationItems(data))
    && forall x :: x in Iterate(EducationItems(data)) && x.Obj? ==> SchoolInput(x.fields)
  }

  /** The entries `convert_education` appends. */
  function EducationEntries(data: Dict): seq<Json>
    requires EducationInput(data)
  {
    Schools(Dicts(Iterate(EducationItems(data))))
  }

  /** A document whose `education` is `{"education": xs}` converts as one whose `education`
      is `xs`. */
  lemma {:induction false} EducationUnwrapped(data: Dict, inner: Dict, xs: Json)
    requires Get(data, "education") == Some(Obj(inner)) && Get(inner, "education") == Some(xs)
    ensures EducationItems(data) == xs
  {
  }

  /** The link is `http://<slug>.edu` exactly for a truthy institution; the place keeps the
      institution's name as given. */
  lemma {:induction false} SchoolPlace(e: Dict)
    requires SchoolInput(e)
    ensures var institution := GetOr(e, "institution", Str(""));
      && Get(School(e).fields, "place") == Some(Obj([Member("name", institution), Member("link", Str(SchoolLink(institution)))]))
      && (Truthy(institution) ==> SchoolLink(institution) == "http://" + Slug(institution.s) + ".edu")
      && (!Truthy(institution) ==> SchoolLink(institution) == "")
  {
    GetFirst(School(e).fields, 0);
  }

  /** The degree falls back to the study type; the major and the track are both the area. */
  lemma {:induction false} SchoolDegree(e: Dict)
    requires SchoolInput(e)
    ensures var degree := GetOr(e, "degree", Str(""));
      && Get(School(e).fields, "degree") == Some(if Truthy(degree) then degree else GetOr(e, "studyType", Str("")))
      && Get(School(e).fields, "major") == Get(School(e).fields, "track") == Some(GetOr(e, "area", Str("")))
  {
    GetFirst(School(e).fields, 1);
    GetFirst(School(e).fields, 2);
    GetFirst(School(e).fields, 3);
  }

  /** The years: a `YYYY-MM` start date gives `YYYY`; without a start date the single `date`
      serves for both ends. */
  lemma {:induction false} SchoolYears(e: Dict, year: string, month: string)
    requires SchoolInput(e)
    requires '-' !in year && '-' !in month
    ensures GetOr(e, "startDate", Str("")) == Str(year + "-" + month)
      ==> Get(School(e).fields, "from") == Some(Str(year))
    ensures !Truthy(GetOr(e, "startDate", Str(""))) && !Truthy(GetOr(e, "endDate", Str("")))
      ==> Get(School(e).fields, "from") == Get(School(e).fields, "to")
  {
    ExtractYearYearMonth(year, month);
    GetFirst(School(e).fields, 4);
    GetFirst(School(e).fields, 5);
  }

  // ---------------------------------------------------------------- skills

  /** The four lists `convert_skills` sorts keyword groups into. */
  datatype Bucket = MethodologyBucket | ToolsBucket | TechnicalBucket | GeneralBucket

  /** The category tests, in the order the source makes them. */
  function Classify(category: string): Bucket {
    if StrIn("method", category) || StrIn("approach", category) then MethodologyBucket
    else if StrIn("tool", category) || StrIn("environment", category) then ToolsBucket
    else if StrIn("technical", category) || StrIn("language", category) || StrIn("framework", category) then TechnicalBucket
    else GeneralBucket
  }

  /** The first matching test wins: a methodology word beats every other, a tool word beats the
      technical ones, and a category matching none is general. */
  lemma {:induction false} ClassifyRule(category: string)
    ensures Classify(category) == MethodologyBucket <==> Contains(category, "method") || Contains(category, "approach")
    ensures Classify(category) == ToolsBucket
      <==> !Contains(category, "method") && !Contains(category, "approach")
           && (Contains(category, "tool") || Contains(category, "environment"))
    ensures Classify(category) == GeneralBucket
      <==> !Contains(category, "method") && !Contains(category, "approach") && !Contains(category, "tool")
           && !Contains(category, "environment") && !Contains(category, "technical")
           && !Contains(category, "language") && !Contains(category, "framework")
  {
    StrInContains("method", category);
    StrInContains("approach", category);
    StrInContains("tool", category);
    StrInContains("environment", category);
    StrInContains("technical", category);
    StrInContains("language", category);
    StrInContains("framework", category);
  }

  function Keywords(g: Dict): Json { GetOr(g, "keywords", Arr([])) }

  /** What one skill group needs: a string `name` (lowered before anything else) and truthy
      keywords `extend` can iterate. */
  predicate GroupInput(g: Json) {
    g.Obj? ==> GetOr(g.fields, "name", Str("")).Str? && (Truthy(Keywords(g.fields)) ==> Iterable(Keywords(g.fields)))
  }

  /** Every group of `gs` is acceptable. */
  predicate GroupInputs(gs: seq<Json>) {
    forall k :: 0 <= k < |gs| ==> GroupInput(gs[k])
  }

  predicate SkillsInput(data: Dict) {
    && Iterable(Items(data, "skills"))
    && GroupInputs(Iterate(Items(data, "skills")))
  }

  function GroupBucket(g: Dict): Bucket
    requires GroupInput(Obj(g))
  {
    Classify(Lower(GetOr(g, "name", Str("")).s))
  }

  /** The keywords a group contributes: none when they are falsy. */
  function GroupKeywords(g: Dict): seq<Json>
    requires GroupInput(Obj(g))
  {
    if Truthy(Keywords(g)) then Iterate(Keywords(g)) else []
  }

  /** The keywords the groups `gs` put into bucket `b`, in order. */
  function Bucketed(gs: seq<Json>, b: Bucket): seq<Json>
    requires GroupInputs(gs)
    decreases |gs|
  {
    if gs == [] then []
    else
      var g := gs[|gs| - 1];
      assert GroupInput(g) && GroupInputs(gs[..|gs| - 1]);
      Bucketed(gs[..|gs| - 1], b) + (if g.Obj? && GroupBucket(g.fields) == b then GroupKeywords(g.fields) else [])
  }

  /** Every keyword of every group, in order. */
  function AllKeywords(gs: seq<Json>): seq<Json>
    requires GroupInputs(gs)
    decreases |gs|
  {
    if gs == [] then []
    else
      var g := gs[|gs| - 1];
      assert GroupInput(g) && GroupInputs(gs[..|gs| - 1]);
      AllKeywords(gs[..|gs| - 1]) + (if g.Obj? then GroupKeywords(g.fields) else [])
  }

  /** The four lists share out the keywords: each keyword goes to exactly one of them, as
      often as it occurs. */
  lemma {:induction false} BucketsPartition(gs: seq<Json>)
    requires GroupInputs(gs)
    ensures Shares(gs) == multiset(AllKeywords(gs))
    decreases |gs|
  {
    if gs != [] {
      var init := gs[..|gs| - 1];
      assert GroupInputs(init);
      BucketsPartition(init);
      SharesStep(gs);
    }
  }

  /** Hence the four lists hold as many keywords as the groups do. */
  lemma {:induction false} BucketsCount(gs: seq<Json>)
    requires GroupInputs(gs)
    ensures |Bucketed(gs, MethodologyBucket)| + |Bucketed(gs, ToolsBucket)| + |Bucketed(gs, TechnicalBucket)|
            + |Bucketed(gs, GeneralBucket)| == |AllKeywords(gs)|
  {
    BucketsPartition(gs);
    assert |Shares(gs)| == |multiset(AllKeywords(gs))|;
  }

  /** One more group adds its keywords to the one list its category names. */
  lemma {:induction false} SharesStep(gs: seq<Json>)
    requires gs != [] && GroupInputs(gs)
    ensures GroupInputs(gs[..|gs| - 1])
    ensures Shares(gs) == Shares(gs[..|gs| - 1])
                          + multiset(if gs[|gs| - 1].Obj? then GroupKeywords(gs[|gs| - 1].fields) else [])
    ensures AllKeywords(gs) == AllKeywords(gs[..|gs| - 1])
                               + (if gs[|gs| - 1].Obj? then GroupKeywords(gs[|gs| - 1].fields) else [])
  {
    var init := gs[..|gs| - 1];
    var g := gs[|gs| - 1];
    assert GroupInput(g) && GroupInputs(init);
    var e := if g.Obj? then GroupKeywords(g.fields) else [];
    var m, t, x, o := Bucketed(init, MethodologyBucket), Bucketed(init, ToolsBucket),
                      Bucketed(init, TechnicalBucket), Bucketed(init, GeneralBucket);
    BucketedLast(gs, MethodologyBucket);
    BucketedLast(gs, ToolsBucket);
    BucketedLast(gs, TechnicalBucket);
    BucketedLast(gs, GeneralBucket);
    if g.Obj? {
      AddToShare(m, t, x, o, e, GroupBucket(g.fields));
    } else {
      assert m + [] == m && t + [] == t && x + [] == x && o + [] == o;
    }
  }

  /** Adding `e` to one of four lists adds it to their union. */
  lemma {:induction false} AddToShare(m: seq<Json>, t: seq<Json>, x: seq<Json>, o: seq<Json>, e: seq<Json>, b: Bucket)
    ensures multiset(m + Pick(b, MethodologyBucket, e)) + multiset(t + Pick(b, ToolsBucket, e))
      + multiset(x + Pick(b, TechnicalBucket, e)) + multiset(o + Pick(b, GeneralBucket, e))
      == multiset(m) + multiset(t) + multiset(x) + multiset(o) + multiset(e)
  {
    assert m + [] == m && t + [] == t && x + [] == x && o + [] == o;
    match b
    case MethodologyBucket => assert multiset(m + e) == multiset(m) + multiset(e);
    case ToolsBucket => assert multiset(t + e) == multiset(t) + multiset(e);
    case TechnicalBucket => assert multiset(x + e) == multiset(x) + multiset(e);
    case GeneralBucket => assert multiset(o + e) == multiset(o) + multiset(e);
  }

  /** The keywords `e` of a group in bucket `b`, as far as bucket `c` is concerned. */
  function Pick(b: Bucket, c: Bucket, e: seq<Json>): seq<Json> {
    if c == b then e else []
  }

  lemma {:induction false} BucketedLast(gs: seq<Json>, b: Bucket)
    requires gs != [] && GroupInputs(gs)
    ensures GroupInputs(gs[..|gs| - 1])
    ensures var g := gs[|gs| - 1];
      Bucketed(gs, b) == Bucketed(gs[..|gs| - 1], b) + (if g.Obj? && GroupBucket(g.fields) == b then GroupKeywords(g.fields) else [])
  {
    assert GroupInput(gs[|gs| - 1]) && GroupInputs(gs[..|gs| - 1]);
  }

  /** The four lists, together. */
  ghost function Shares(gs: seq<Json>): multiset<Json>
    requires GroupInputs(gs)
  {
    multiset(Bucketed(gs, MethodologyBucket)) + multiset(Bucketed(gs, ToolsBucket))
    + multiset(Bucketed(gs, TechnicalBucket)) + multiset(Bucketed(gs, GeneralBucket))
  }

  /** `Bucketed` over one more group. */
  lemma {:induction false} BucketedSnoc(gs: seq<Json>, i: nat, b: Bucket)
    requires i < |gs| && GroupInputs(gs)
    ensures GroupInputs(gs[..i + 1])
    ensures Bucketed(gs[..i + 1], b)
      == Bucketed(gs[..i], b) + (if gs[i].Obj? && GroupBucket(gs[i].fields) == b then GroupKeywords(gs[i].fields) else [])
  {
    assert GroupInputs(gs[..i + 1]);
    assert gs[..i + 1][..i] == gs[..i];
  }

  /** One more group, a dictionary whose keywords `kws` fall in bucket `b`: it extends that
      bucket's list by them and leaves every other list as it was. */
  lemma {:induction false} GroupStep(gs: seq<Json>, i: nat, kws: seq<Json>, b: Bucket)
    requires i < |gs| && GroupInputs(gs)
    requires gs[i].Obj? && GroupInput(gs[i]) && kws == GroupKeywords(gs[i].fields) && b == GroupBucket(gs[i].fields)
    ensures GroupInputs(gs[..i + 1])
    ensures Bucketed(gs[..i + 1], MethodologyBucket) == Bucketed(gs[..i], MethodologyBucket) + (if b == MethodologyBucket then kws else [])
    ensures Bucketed(gs[..i + 1], ToolsBucket) == Bucketed(gs[..i], ToolsBucket) + (if b == ToolsBucket then kws else [])
    ensures Bucketed(gs[..i + 1], TechnicalBucket) == Bucketed(gs[..i], TechnicalBucket) + (if b == TechnicalBucket then kws else [])
    ensures Bucketed(gs[..i + 1], GeneralBucket) == Bucketed(gs[..i], GeneralBucket) + (if b == GeneralBucket then kws else [])
  {
    BucketedSnoc(gs, i, MethodologyBucket);
    BucketedSnoc(gs, i, ToolsBucket);
    BucketedSnoc(gs, i, TechnicalBucket);
    BucketedSnoc(gs, i, GeneralBucket);
  }

  /** One more group that is no dictionary, or has falsy keywords, changes no list. */
  lemma {:induction false} GroupSkip(gs: seq<Json>, i: nat)
    requires i < |gs| && GroupInputs(gs)
    requires !(gs[i].Obj? && Truthy(Keywords(gs[i].fields)))
    ensures GroupInputs(gs[..i + 1])
    ensures Bucketed(gs[..i + 1], MethodologyBucket) == Bucketed(gs[..i], MethodologyBucket)
    ensures Bucketed(gs[..i + 1], ToolsBucket) == Bucketed(gs[..i], ToolsBucket)
    ensures Bucketed(gs[..i + 1], TechnicalBucket) == Bucketed(gs[..i], TechnicalBucket)
    ensures Bucketed(gs[..i + 1], GeneralBucket) == Bucketed(gs[..i], GeneralBucket)
  {
    BucketedSnoc(gs, i, MethodologyBucket);
    BucketedSnoc(gs, i, ToolsBucket);
    BucketedSnoc(gs, i, TechnicalBucket);
    BucketedSnoc(gs, i, GeneralBucket);
    assert GroupInput(gs[i]);
    assert Bucketed(gs[..i], MethodologyBucket) + [] == Bucketed(gs[..i], MethodologyBucket);
    assert Bucketed(gs[..i], ToolsBucket) + [] == Bucketed(gs[..i], ToolsBucket);
    assert Bucketed(gs[..i], TechnicalBucket) + [] == Bucketed(gs[..i], TechnicalBucket);
    assert Bucketed(gs[..i], GeneralBucket) + [] == Bucketed(gs[..i], GeneralBucket);
  }

  /** `{"name": tech, "level": random.randint(3, 5)}` with the draw numbered `n`. */
  function Levelled(runtime: Runtime, tech: Json, n: nat): Json {
    Obj([Member("name", tech), Member("level", Num(runtime.randint(n)))])
  }

  /** The technical entries for keywords `ks`, the first drawing number `start`. */
  function LevelledAll(runtime: Runtime, ks: seq<Json>, start: nat): (r: seq<Json>)
    ensures |r| == |ks|
    decreases |ks|
  {
    if ks == [] then []
    else LevelledAll(runtime, ks[..|ks| - 1], start) + [Levelled(runtime, ks[|ks| - 1], start + |ks| - 1)]
  }

  /** Entry `j` names keyword `j` and carries draw number `start + j`. */
  lemma {:induction false} LevelledAllIndex(runtime: Runtime, ks: seq<Json>, start: nat)
    ensures forall j :: 0 <= j < |ks| ==> LevelledAll(runtime, ks, start)[j] == Levelled(runtime, ks[j], start + j)
    decreases |ks|
  {
    if ks != [] {
      var init := ks[..|ks| - 1];
      LevelledAllIndex(runtime, init, start);
      forall j | 0 <= j < |ks| ensures LevelledAll(runtime, ks, start)[j] == Levelled(runtime, ks[j], start + j) {
        if j < |init| {
          assert init[j] == ks[j];
        }
      }
    }
  }

  lemma {:induction false} LevelledSnoc(runtime: Runtime, ks: seq<Json>, k: Json, start: nat)
    ensures LevelledAll(runtime, ks + [k], start) == LevelledAll(runtime, ks, start) + [Levelled(runtime, k, start + |ks|)]
  {
    assert (ks + [k])[..|ks|] == ks;
  }

  const Placeholders: seq<Json> := [
    Obj([Member("name", Str("Skill 1")), Member("level", Num(4))]),
    Obj([Member("name", Str("Skill 2")), Member("level", Num(5))])
  ]

  /** `technical_expertise or [placeholders]` */
  function TechnicalOf(runtime: Runtime, ks: seq<Json>, start: nat): seq<Json> {
    var t := LevelledAll(runtime, ks, start);
    if t != [] then t else Placeholders
  }

  /** Each technical keyword gets an entry with its name and a level from 3 to 5, in order;
      with no technical keyword, the two placeholder skills. */
  lemma {:induction false} TechnicalLevels(runtime: Runtime, ks: seq<Json>, start: nat)
    requires runtime.Valid()
    ensures ks != [] ==> |TechnicalOf(runtime, ks, start)| == |ks|
    ensures ks != [] ==> forall j :: 0 <= j < |ks| ==>
      var e := TechnicalOf(runtime, ks, start)[j];
      e.Obj? && |e.fields| == 2 && e.fields[0] == Member("name", ks[j])
      && e.fields[1].key == "level" && e.fields[1].value.Num? && 3 <= e.fields[1].value.n <= 5
    ensures ks == [] ==> TechnicalOf(runtime, ks, start) == Placeholders
  {
    LevelledAllIndex(runtime, ks, start);
  }

  // ---------------------------------------------------------------- achievements

  /** `{"name": name, "description": description}` */
  function Achievement(name: Json, description: Json): Json {
    Obj([Member("name", name), Member("description", description)])
  }

  /** A project's description: the first item of a non-empty list, the value itself otherwise. */
  function ProjectDescription(p: Dict): Json {
    var d := GetOr(p, "description", Str(""));
    if d.Arr? && d.items != [] then d.items[0] else d
  }

  /** The achievement one project becomes. */
  function ProjectAchievement(p: Dict): Json {
    Achievement(GetOr(p, "name", Str("")), ProjectDescription(p))
  }

  /** The achievement one certification becomes. */
  function CertAchievement(codec: Codec, c: Dict): Json {
    var description := GetOr(c, "description", Str(""));
    Achievement(GetOr(c, "title", Str("")),
                Or(description, Str("Issued by " + codec.show(GetOr(c, "awarder", Str(""))))))
  }

  /** One achievement per dictionary, in order. */
  function ProjectAchievements(ds: seq<Dict>): (r: seq<Json>)
    ensures |r| == |ds| && forall k :: 0 <= k < |ds| ==> r[k] == ProjectAchievement(ds[k])
  {
    seq(|ds|, k requires 0 <= k < |ds| => ProjectAchievement(ds[k]))
  }

  function CertAchievements(codec: Codec, ds: seq<Dict>): (r: seq<Json>)
    ensures |r| == |ds| && forall k :: 0 <= k < |ds| ==> r[k] == CertAchievement(codec, ds[k])
  {
    seq(|ds|, k requires 0 <= k < |ds| => CertAchievement(codec, ds[k]))
  }

  lemma {:induction false} ProjectsStep(entries: seq<Json>, i: nat)
    requires i < |entries|
    ensures ProjectAchievements(Dicts(entries[..i + 1]))
      == ProjectAchievements(Dicts(entries[..i])) + (if entries[i].Obj? then [ProjectAchievement(entries[i].fields)] else [])
  {
    DictsSnoc(entries, i);
  }

  lemma {:induction false} CertsStep(codec: Codec, entries: seq<Json>, i: nat)
    requires i < |entries|
    ensures CertAchievements(codec, Dicts(entries[..i + 1]))
      == CertAchievements(codec, Dicts(entries[..i])) + (if entries[i].Obj? then [CertAchievement(codec, entries[i].fields)] else [])
  {
    DictsSnoc(entries, i);
  }

  /** A project keeps its name; a list description gives way to its first item, any other
      description is kept as it is. */
  lemma {:induction false} ProjectFields(p: Dict)
    ensures var a := ProjectAchievement(p).fields;
      && Get(a, "name") == Some(GetOr(p, "name", Str("")))
      && (forall items :: Get(p, "description") == Some(Arr(items)) && items != [] ==> Get(a, "description") == Some(items[0]))
      && (!Get(p, "description").None? && !(Get(p, "description").value.Arr? && Get(p, "description").value.items != [])
          ==> Get(a, "description") == Get(p, "description"))
      && (Get(p, "description").None? ==> Get(a, "description") == Some(Str("")))
  {
    var a := ProjectAchievement(p).fields;
    GetFirst(a, 0);
    GetFirst(a, 1);
  }

  /** A certification is named by its title; without a truthy description it reads
      `Issued by <awarder>`. */
  lemma {:induction false} CertFields(codec: Codec, c: Dict)
    requires codec.Valid()
    ensures var a := CertAchievement(codec, c).fields;
      && Get(a, "name") == Some(GetOr(c, "title", Str("")))
      && (Truthy(GetOr(c, "description", Str(""))) ==> Get(a, "description") == Get(c, "description"))
      && forall s :: (!Truthy(GetOr(c, "description", Str(""))) && GetOr(c, "awarder", Str("")) == Str(s)
                      ==> Get(a, "description") == Some(Str("Issued by " + s)))
  {
    var a := CertAchievement(codec, c).fields;
    GetFirst(a, 0);
    GetFirst(a, 1);
  }

  /** The achievements: the projects', then the certifications'. */
  function Achievements(codec: Codec, data: Dict): seq<Json>
    requires Iterable(Items(data, "projects")) && Iterable(Items(data, "certifications"))
  {
    ProjectAchievements(Dicts(Iterate(Items(data, "projects"))))
    + CertAchievements(codec, Dicts(Iterate(Items(data, "certifications"))))
  }

  const Objective: string := "Seeking to leverage my skills and experience to contribute to innovative projects and advance my career in a dynamic environment."

  /** `f` accepts every dictionary among `xs`. */
  ghost predicate AcceptsDicts(f: Dict --> Json, xs: seq<Json>) {
    forall x :: x in xs && x.Obj? ==> f.requires(x.fields)
  }

  /** `f` applied to the dictionaries among `xs`, in order. */
  function MapDicts(f: Dict --> Json, xs: seq<Json>): (r: seq<Json>)
    requires AcceptsDicts(f, xs)
    ensures |r| == |Dicts(xs)|
  {
    var ds := Dicts(xs);
    assert forall k :: 0 <= k < |ds| ==> f.requires(ds[k]) by {
      forall k | 0 <= k < |ds| ensures f.requires(ds[k]) {
        assert ds[k] in ds && Obj(ds[k]) in xs;
      }
    }
    seq(|ds|, k requires 0 <= k < |ds| => f(ds[k]))
  }

  /** Entry `k` is the image of the `k`-th dictionary. */
  lemma {:induction false} MapDictsIndex(f: Dict --> Json, xs: seq<Json>)
    requires AcceptsDicts(f, xs)
    ensures forall k :: 0 <= k < |Dicts(xs)| ==> f.requires(Dicts(xs)[k]) && MapDicts(f, xs)[k] == f(Dicts(xs)[k])
  {
    var ds := Dicts(xs);
    forall k | 0 <= k < |ds| ensures f.requires(ds[k]) {
      assert ds[k] in ds && Obj(ds[k]) in xs;
    }
  }

  /** One more element: a dictionary adds its image at the end, anything else adds nothing. */
  lemma {:induction false} MapDictsSnoc(f: Dict --> Json, xs: seq<Json>, i: nat)
    requires i < |xs| && AcceptsDicts(f, xs)
    ensures AcceptsDicts(f, xs[..i]) && AcceptsDicts(f, xs[..i + 1])
    ensures xs[i].Obj? ==> MapDicts(f, xs[..i + 1]) == MapDicts(f, xs[..i]) + [f(xs[i].fields)]
    ensures !xs[i].Obj? ==> MapDicts(f, xs[..i + 1]) == MapDicts(f, xs[..i])
  {
    assert forall x :: x in xs[..i + 1] ==> x in xs;
    assert forall x :: x in xs[..i] ==> x in xs;
    DictsSnoc(xs, i);
  }

  /** `for x in xs: if isinstance(x, dict): out.append(f(x))` */
  method AppendDicts(out: seq<Json>, f: Dict --> Json, xs: seq<Json>) returns (r: seq<Json>)
    requires AcceptsDicts(f, xs)
    ensures r == out + MapDicts(f, xs)
  {
    r := out;
    var i := 0;
    assert AcceptsDicts(f, xs[..0]);
    while i < |xs|
      invariant 0 <= i <= |xs| && AcceptsDicts(f, xs[..i])
      invariant r == out + MapDicts(f, xs[..i])
    {
      MapDictsSnoc(f, xs, i);
      if xs[i].Obj? {
        assert xs[i] in xs;
        AppendAssoc(out, MapDicts(f, xs[..i]), [f(xs[i].fields)]);
        r := r + [f(xs[i].fields)];
      }
      i := i + 1;
    }
    assert xs[..i] == xs;
  }

  /** The steps of `convert_contacts` that fill the contacts dictionary: the named fields, the
      address, one pass over the profiles and the website. */
  method BuildContacts(codec: Codec, data: Dict, c0: Dict) returns (c: Dict)
    requires ContactsInput(data)
    ensures c == ContactsOf(codec, data, c0)
  {
    var basics := Basics(data).fields;
    c := c0;
    c := Put(c, "name", GetOr(basics, "name", Str("")));
    c := Put(c, "title", GetOr(basics, "label", Str("")));
    c := Put(c, "email", GetOr(basics, "email", Str("")));
    var location := GetOr(basics, "location", Obj([]));
    if location.Obj? {
      var city := GetOr(location.fields, "city", Str(""));
      var country := GetOr(location.fields, "countryCode", Str(""));
      c := Put(c, "address", Address(codec, city, country));
      c := Put(c, "location", Or(country, city));
    }
    assert c == ContactFields(codec, basics, c0);

    var profiles := Iterate(Profiles(basics));
    ghost var before := c;
    c := Fold((d, profile) requires ProfileInput(profile) => ApplyProfile(codec, d, profile), c, profiles);
    ProfilesFold(codec, before, profiles);

    var url := GetOr(basics, "url", Null);
    if Truthy(url) {
      c := Put(c, "website", WebsiteEntry(url.s));
    }
  }

  /** The loop `FoldDict` describes. */
  method Fold(f: (Dict, Json) --> Dict, d: Dict, xs: seq<Json>) returns (r: Dict)
    requires forall c, x :: x in xs ==> f.requires(c, x)
    ensures r == FoldDict(f, d, xs)
  {
    r := d;
    var i := 0;
    while i < |xs|
      invariant 0 <= i <= |xs| && forall x :: x in xs[..i] ==> x in xs
      invariant r == FoldDict(f, d, xs[..i])
    {
      assert xs[..i + 1][..i] == xs[..i];
      assert forall x :: x in xs[..i + 1] ==> x in xs;
      r := f(r, xs[i]);
      i := i + 1;
    }
    assert xs[..i] == xs;
  }

  // ---------------------------------------------------------------- the converter's state

  const InitialKeys: seq<string> := ["contacts", "jobs", "education", "skills", "technical_expertise", "methodology", "tools", "achievements"]

  /** The entries of `self.config_data` (the keys added after construction — `position`,
      `tagline`, `objective` — in `extras`, in the order they were first assigned) and the
      number of values `random.randint` has drawn so far. */
  datatype ConfigState = ConfigState(
    contacts: Dict, jobs: seq<Json>, education: seq<Json>, skills: seq<Json>,
    technicalExpertise: seq<Json>, methodology: seq<Json>, tools: seq<Json>,
    achievements: seq<Json>, extras: Dict, draws: nat)

  /** The state `__init__` leaves: the eight initial entries, all empty. */
  function Fresh(draws: nat): (s: ConfigState)
    ensures s.contacts == [] && s.jobs == [] && s.education == [] && s.skills == []
    ensures s.technicalExpertise == [] && s.methodology == [] && s.tools == [] && s.achievements == []
    ensures s.extras == [] && s.draws == draws
  {
    ConfigState([], [], [], [], [], [], [], [], [], draws)
  }

  /** `self.config_data` as a dictionary: the eight initial keys in order, then the extras. */
  function ConfigOf(s: ConfigState): (r: Dict)
    ensures Keys(r) == InitialKeys + Keys(s.extras)
    ensures r[..8] == [
      Member("contacts", Obj(s.contacts)), Member("jobs", Arr(s.jobs)), Member("education", Arr(s.education)),
      Member("skills", Arr(s.skills)), Member("technical_expertise", Arr(s.technicalExpertise)),
      Member("methodology", Arr(s.methodology)), Member("tools", Arr(s.tools)),
      Member("achievements", Arr(s.achievements)) ]
    ensures r[8..] == s.extras
  {
    var initial := [
      Member("contacts", Obj(s.contacts)), Member("jobs", Arr(s.jobs)), Member("education", Arr(s.education)),
      Member("skills", Arr(s.skills)), Member("technical_expertise", Arr(s.technicalExpertise)),
      Member("methodology", Arr(s.methodology)), Member("tools", Arr(s.tools)),
      Member("achievements", Arr(s.achievements)) ];
    assert Keys(initial) == InitialKeys;
    KeysAppend(initial, s.extras);
    initial + s.extras
  }

  /** What `convert_contacts` leaves. */
  function AfterContacts(codec: Codec, data: Dict, s: ConfigState): ConfigState
    requires ContactsInput(data)
  {
    var b := Basics(data).fields;
    s.(contacts := ContactsOf(codec, data, s.contacts),
       extras := Put(Put(s.extras, "position", GetOr(b, "label", Str(""))), "tagline", GetOr(b, "summary", Str(""))))
  }

  /** What `convert_work_experience` leaves. */
  function AfterWork(runtime: Runtime, data: Dict, s: ConfigState): ConfigState
    requires WorkInput(data)
  {
    s.(jobs := s.jobs + WorkJobs(runtime, data))
  }

  /** What `convert_education` leaves. */
  function AfterEducation(data: Dict, s: ConfigState): ConfigState
    requires EducationInput(data)
  {
    s.(education := s.education + EducationEntries(data))
  }

  /** What `convert_skills` leaves: the four lists replaced, one draw per technical keyword. */
  function AfterSkills(runtime: Runtime, data: Dict, s: ConfigState): ConfigState
    requires SkillsInput(data)
  {
    var gs := Iterate(Items(data, "skills"));
    var ks := Bucketed(gs, TechnicalBucket);
    s.(skills := Bucketed(gs, GeneralBucket), methodology := Bucketed(gs, MethodologyBucket),
       tools := Bucketed(gs, ToolsBucket), technicalExpertise := TechnicalOf(runtime, ks, s.draws),
       draws := s.draws + |ks|)
  }

  /** What `convert_projects_to_achievements` leaves. */
  function AfterProjects(data: Dict, s: ConfigState): ConfigState
    requires Iterable(Items(data, "projects"))
  {
    s.(achievements := s.achievements + ProjectAchievements(Dicts(Iterate(Items(data, "projects")))))
  }

  /** What `convert_certifications` leaves. */
  function AfterCertifications(codec: Codec, data: Dict, s: ConfigState): ConfigState
    requires Iterable(Items(data, "certifications"))
  {
    s.(achievements := s.achievements + CertAchievements(codec, Dicts(Iterate(Items(data, "certifications")))))
  }

  /** What `add_objective` leaves. */
  function AfterObjective(s: ConfigState): ConfigState {
    s.(extras := Put(s.extras, "objective", Str(Objective)))
  }

  /** The document shapes `convert` runs on without raising. */
  predicate ConvertInput(data: Dict) {
    && ContactsInput(data) && WorkInput(data) && EducationInput(data) && SkillsInput(data)
    && Iterable(Items(data, "projects")) && Iterable(Items(data, "certifications"))
  }

  /** What `convert` leaves: the seven steps in order. */
  function Converted(codec: Codec, runtime: Runtime, data: Dict, s: ConfigState): ConfigState
    requires ConvertInput(data)
  {
    AfterObjective(AfterCertifications(codec, data, AfterProjects(data,
      AfterSkills(runtime, data, AfterEducation(data, AfterWork(runtime, data, AfterContacts(codec, data, s)))))))
  }

  /** The effect of `convert` field by field: the contacts filled in, jobs, education entries
      and achievements (projects', then certifications') appended, the four skill lists
      replaced with one draw per technical keyword, and `position`, `tagline` and `objective`
      assigned in that order. */
  lemma {:induction false} ConvertedFields(codec: Codec, runtime: Runtime, data: Dict, s: ConfigState)
    requires ConvertInput(data)
    ensures var r := Converted(codec, runtime, data, s);
      var gs := Iterate(Items(data, "skills"));
      var b := Basics(data).fields;
      && r.contacts == ContactsOf(codec, data, s.contacts)
      && r.jobs == s.jobs + WorkJobs(runtime, data)
      && r.education == s.education + EducationEntries(data)
      && r.skills == Bucketed(gs, GeneralBucket)
      && r.methodology == Bucketed(gs, MethodologyBucket)
      && r.tools == Bucketed(gs, ToolsBucket)
      && r.technicalExpertise == TechnicalOf(runtime, Bucketed(gs, TechnicalBucket), s.draws)
      && r.draws == s.draws + |Bucketed(gs, TechnicalBucket)|
      && r.achievements == s.achievements + Achievements(codec, data)
      && r.extras == Put(Put(Put(s.extras, "position", GetOr(b, "label", Str(""))), "tagline", GetOr(b, "summary", Str(""))),
                         "objective", Str(Objective))
  {
    AppendAssoc(s.achievements, ProjectAchievements(Dicts(Iterate(Items(data, "projects")))),
                CertAchievements(codec, Dicts(Iterate(Items(data, "certifications")))));
  }

  /** On a fresh converter, `convert` returns the eight initial keys followed by `position`,
      `tagline` and `objective`, which hold the basics' label and summary and the fixed text. */
  lemma {:induction false} ConvertFresh(codec: Codec, runtime: Runtime, data: Dict, draws: nat)
    requires ConvertInput(data)
    ensures var s := Converted(codec, runtime, data, Fresh(draws));
      && Keys(ConfigOf(s)) == InitialKeys + ["position", "tagline", "objective"]
      && s.extras == [Member("position", GetOr(Basics(data).fields, "label", Str(""))),
                      Member("tagline", GetOr(Basics(data).fields, "summary", Str(""))),
                      Member("objective", Str(Objective))]
  {
    ConvertedFields(codec, runtime, data, Fresh(draws));
    FreshExtras(GetOr(Basics(data).fields, "label", Str("")), GetOr(Basics(data).fields, "summary", Str("")));
  }

  lemma {:induction false} FreshExtras(position: Json, tagline: Json)
    ensures var e := Put(Put(Put([], "position", position), "tagline", tagline), "objective", Str(Objective));
      && e == [Member("position", position), Member("tagline", tagline), Member("objective", Str(Objective))]
      && Keys(e) == ["position", "tagline", "objective"]
  {
    var m1, m2, m3 := Member("position", position), Member("tagline", tagline), Member("objective", Str(Objective));
    PutAbsent([], m1.key, m1.value);
    assert Keys([m1]) == [m1.key];
    PutAbsent([m1], m2.key, m2.value);
    assert Keys([m1, m2]) == [m1.key, m2.key];
    PutAbsent([m1, m2], m3.key, m3.value);
    assert Keys([m1, m2, m3]) == [m1.key, m2.key, m3.key];
  }

  // ---------------------------------------------------------------- the skills loop

  /** The loop of `convert_skills()` over the groups `groups`: the general, methodology, tools
      and technical lists it builds, and the number of the next draw, the first being `start`. */
  method SortSkills(runtime: Runtime, groups: seq<Json>, start: nat)
    returns (allSkills: seq<Json>, meth: seq<Json>, tls: seq<Json>, technical: seq<Json>, n: nat)
    requires GroupInputs(groups)
    ensures allSkills == Bucketed(groups, GeneralBucket)
    ensures meth == Bucketed(groups, MethodologyBucket)
    ensures tls == Bucketed(groups, ToolsBucket)
    ensures technical == LevelledAll(runtime, Bucketed(groups, TechnicalBucket), start)
    ensures n == start + |Bucketed(groups, TechnicalBucket)|
  {
    allSkills, meth, tls, technical := [], [], [], [];
    n := start;
    var i := 0;
    while i < |groups|
      invariant 0 <= i <= |groups|
      invariant GroupInputs(groups[..i])
      invariant allSkills == Bucketed(groups[..i], GeneralBucket)
      invariant meth == Bucketed(groups[..i], MethodologyBucket)
      invariant tls == Bucketed(groups[..i], ToolsBucket)
      invariant technical == LevelledAll(runtime, Bucketed(groups[..i], TechnicalBucket), start)
      invariant n == start + |Bucketed(groups[..i], TechnicalBucket)|
    {
      var group := groups[i];
      assert GroupInput(group);
      if group.Obj? && Truthy(Keywords(group.fields)) {
        var keywords := Iterate(Keywords(group.fields));
        var bucket := GroupBucket(group.fields);
        GroupStep(groups, i, keywords, bucket);
        allSkills, meth, tls, technical, n :=
          AddGroup(runtime, keywords, bucket, allSkills, meth, tls, technical, Bucketed(groups[..i], TechnicalBucket), start, n);
      } else {
        GroupSkip(groups, i);
      }
      i := i + 1;
    }
    assert groups[..i] == groups;
  }

  /** One group's keywords `kws`, whose category falls in bucket `b`, added to the list the
      bucket names; technical keywords each draw a level. */
  method AddGroup(runtime: Runtime, kws: seq<Json>, b: Bucket,
                  allSkills: seq<Json>, meth: seq<Json>, tls: seq<Json>, technical: seq<Json>,
                  ghost before: seq<Json>, ghost start: nat, n: nat)
    returns (allSkills': seq<Json>, meth': seq<Json>, tls': seq<Json>, technical': seq<Json>, n': nat)
    requires technical == LevelledAll(runtime, before, start) && n == start + |before|
    ensures allSkills' == allSkills + (if b == GeneralBucket then kws else [])
    ensures meth' == meth + (if b == MethodologyBucket then kws else [])
    ensures tls' == tls + (if b == ToolsBucket then kws else [])
    ensures technical' == LevelledAll(runtime, before + (if b == TechnicalBucket then kws else []), start)
    ensures n' == start + |before + (if b == TechnicalBucket then kws else [])|
  {
    allSkills', meth', tls', technical', n' := allSkills, meth, tls, technical, n;
    if b == MethodologyBucket {
      meth' := meth + kws;
    } else if b == ToolsBucket {
      tls' := tls + kws;
    } else if b == TechnicalBucket {
      technical' := DrawLevels(runtime, technical, kws, before, start, n);
      n' := n + |kws|;
    } else {
      allSkills' := allSkills + kws;
    }
    assert before + [] == before;
  }

  /** `for tech in keywords: technical_expertise.append({"name": tech, "level": random.randint(3, 5)})`,
      where `technical`, the entries for the keywords `before`, was begun at draw `start` and
      the next draw is number `n`. */
  method DrawLevels(runtime: Runtime, technical: seq<Json>, keywords: seq<Json>, ghost before: seq<Json>, ghost start: nat, n: nat)
    returns (r: seq<Json>)
    requires technical == LevelledAll(runtime, before, start) && n == start + |before|
    ensures r == LevelledAll(runtime, before + keywords, start)
  {
    r := technical;
    var j := 0;
    assert before + keywords[..0] == before;
    while j < |keywords|
      invariant 0 <= j <= |keywords|
      invariant r == LevelledAll(runtime, before + keywords[..j], start)
    {
      LevelledSnoc(runtime, before + keywords[..j], keywords[j], start);
      assert before + keywords[..j + 1] == (before + keywords[..j]) + [keywords[j]];
      r := r + [Levelled(runtime, keywords[j], n + j)];
      j := j + 1;
    }
    assert keywords[..j] == keywords;
  }

  class Converter {
    const codec: Codec
    const runtime: Runtime
    /** `self.json_data` */
    const jsonData: Dict
    /** The entries of `self.config_data`, in its key order; `ConfigState` explains them. */
    var contacts: Dict
    var jobs: seq<Json>
    var education: seq<Json>
    var skills: seq<Json>
    var technicalExpertise: seq<Json>
    var methodology: seq<Json>
    var tools: seq<Json>
    var achievements: seq<Json>
    var extras: Dict
    var draws: nat

    /** `__init__`: the eight initial entries, all empty. */
    constructor(codec: Codec, runtime: Runtime, jsonData: Dict, draws: nat)
      ensures this.codec == codec && this.runtime == runtime && this.jsonData == jsonData
      ensures State() == Fresh(draws)
    {
      this.codec := codec;
      this.runtime := runtime;
      this.jsonData := jsonData;
      contacts := [];
      jobs := [];
      education := [];
      skills := [];
      technicalExpertise := [];
      methodology := [];
      tools := [];
      achievements := [];
      extras := [];
      this.draws := draws;
    }

    /** The object's fields as a value. */
    function State(): ConfigState
      reads this
    {
      ConfigState(contacts, jobs, education, skills, technicalExpertise, methodology, tools, achievements, extras, draws)
    }

    /** `self.config_data` */
    function ConfigData(): (r: Dict)
      reads this
      ensures r == ConfigOf(State())
      ensures Keys(r) == InitialKeys + Keys(extras)
    {
      ConfigOf(State())
    }

    /** `convert_contacts()` */
    method ConvertContacts()
      requires ContactsInput(jsonData)
      modifies this`contacts, this`extras
      ensures contacts == ContactsOf(codec, jsonData, old(contacts))
      ensures extras == Put(Put(old(extras), "position", GetOr(Basics(jsonData).fields, "label", Str(""))),
                            "tagline", GetOr(Basics(jsonData).fields, "summary", Str("")))
      ensures jobs == old(jobs) && education == old(education) && skills == old(skills)
      ensures technicalExpertise == old(technicalExpertise) && methodology == old(methodology) && tools == old(tools)
      ensures achievements == old(achievements) && draws == old(draws)
    {
      var basics := Basics(jsonData).fields;
      var c := BuildContacts(codec, jsonData, contacts);
      contacts := c;
      extras := Put(extras, "position", GetOr(basics, "label", Str("")));
      extras := Put(extras, "tagline", GetOr(basics, "summary", Str("")));
    }

    /** `convert_work_experience()`: one job appended per dictionary in `work`. */
    method ConvertWorkExperience()
      requires WorkInput(jsonData)
      modifies this`jobs
      ensures jobs == old(jobs) + WorkJobs(runtime, jsonData)
      ensures contacts == old(contacts) && education == old(education) && skills == old(skills) && technicalExpertise == old(technicalExpertise) && methodology == old(methodology) && tools == old(tools) && achievements == old(achievements) && extras == old(extras) && draws == old(draws)
    {
      var entries := Iterate(Items(jsonData, "work"));
      jobs := AppendDicts(jobs, e requires JobInput(e) => Job(runtime, e), entries);
      MapDictsIndex(e requires JobInput(e) => Job(runtime, e), entries);
      assert MapDicts(e requires JobInput(e) => Job(runtime, e), entries) == WorkJobs(runtime, jsonData);
    }

    /** `convert_education()`: one entry appended per dictionary, after unwrapping a nested
        `education` list. */
    method ConvertEducation()
      requires EducationInput(jsonData)
      modifies this`education
      ensures education == old(education) + EducationEntries(jsonData)
      ensures contacts == old(contacts) && jobs == old(jobs) && skills == old(skills) && technicalExpertise == old(technicalExpertise) && methodology == old(methodology) && tools == old(tools) && achievements == old(achievements) && extras == old(extras) && draws == old(draws)
    {
      var entries := Iterate(EducationItems(jsonData));
      education := AppendDicts(education, e requires SchoolInput(e) => School(e), entries);
      MapDictsIndex(e requires SchoolInput(e) => School(e), entries);
      assert MapDicts(e requires SchoolInput(e) => School(e), entries) == EducationEntries(jsonData);
    }

    /** `convert_skills()`: keyword groups sorted into the four lists by their category; each
        technical keyword draws a level. */
    method ConvertSkills()
      requires SkillsInput(jsonData)
      modifies this`skills, this`methodology, this`tools, this`technicalExpertise, this`draws
      ensures var gs := Iterate(Items(jsonData, "skills"));
        && skills == Bucketed(gs, GeneralBucket)
        && methodology == Bucketed(gs, MethodologyBucket)
        && tools == Bucketed(gs, ToolsBucket)
        && technicalExpertise == TechnicalOf(runtime, Bucketed(gs, TechnicalBucket), old(draws))
        && draws == old(draws) + |Bucketed(gs, TechnicalBucket)|
      ensures contacts == old(contacts) && jobs == old(jobs) && education == old(education)
      ensures achievements == old(achievements) && extras == old(extras)
    {
      var groups := Iterate(Items(jsonData, "skills"));
      var technical, n;
      skills, methodology, tools, technical, n := SortSkills(runtime, groups, draws);
      technicalExpertise := if technical != [] then technical else Placeholders;
      draws := n;
    }

    /** `convert_projects_to_achievements()`: one achievement appended per dictionary. */
    method ConvertProjectsToAchievements()
      requires Iterable(Items(jsonData, "projects"))
      modifies this`achievements
      ensures achievements == old(achievements) + ProjectAchievements(Dicts(Iterate(Items(jsonData, "projects"))))
      ensures contacts == old(contacts) && jobs == old(jobs) && education == old(education) && skills == old(skills) && technicalExpertise == old(technicalExpertise) && methodology == old(methodology) && tools == old(tools) && extras == old(extras) && draws == old(draws)
    {
      var projects := Iterate(Items(jsonData, "projects"));
      var i := 0;
      while i < |projects|
        modifies this`achievements
        invariant 0 <= i <= |projects|
        invariant achievements == old(achievements) + ProjectAchievements(Dicts(projects[..i]))
      {
        var project := projects[i];
        ProjectsStep(projects, i);
        if project.Obj? {
          var name := GetOr(project.fields, "name", Str(""));
          var description := GetOr(project.fields, "description", Str(""));
          if description.Arr? && description.items != [] {
            description := description.items[0];
          }
          var achievement := Achievement(name, description);
          AppendAssoc(old(achievements), ProjectAchievements(Dicts(projects[..i])), [achievement]);
          achievements := achievements + [achievement];
        }
        i := i + 1;
      }
      assert projects[..i] == projects;
    }

    /** `convert_certifications()`: one achievement appended per dictionary. */
    method ConvertCertifications()
      requires Iterable(Items(jsonData, "certifications"))
      modifies this`achievements
      ensures achievements == old(achievements) + CertAchievements(codec, Dicts(Iterate(Items(jsonData, "certifications"))))
      ensures contacts == old(contacts) && jobs == old(jobs) && education == old(education) && skills == old(skills) && technicalExpertise == old(technicalExpertise) && methodology == old(methodology) && tools == old(tools) && extras == old(extras) && draws == old(draws)
    {
      var certifications := Iterate(Items(jsonData, "certifications"));
      var i := 0;
      while i < |certifications|
        modifies this`achievements
        invariant 0 <= i <= |certifications|
        invariant achievements == old(achievements) + CertAchievements(codec, Dicts(certifications[..i]))
      {
        var cert := certifications[i];
        CertsStep(codec, certifications, i);
        if cert.Obj? {
          var name := GetOr(cert.fields, "title", Str(""));
          var description := Or(GetOr(cert.fields, "description", Str("")),
                                Str("Issued by " + codec.show(GetOr(cert.fields, "awarder", Str("")))));
          var achievement := Achievement(name, description);
          AppendAssoc(old(achievements), CertAchievements(codec, Dicts(certifications[..i])), [achievement]);
          achievements := achievements + [achievement];
        }
        i := i + 1;
      }
      assert certifications[..i] == certifications;
    }

    /** `add_objective()` */
    method AddObjective()
      modifies this`extras
      ensures extras == Put(old(extras), "objective", Str(Objective))
      ensures contacts == old(contacts) && jobs == old(jobs) && education == old(education) && skills == old(skills) && technicalExpertise == old(technicalExpertise) && methodology == old(methodology) && tools == old(tools) && achievements == old(achievements) && draws == old(draws)
    {
      extras := Put(extras, "objective", Str(Objective));
    }

    /** `convert()`: every step in order, then the configuration dictionary. */
    method Convert() returns (config: Dict)
      requires ConvertInput(jsonData)
      modifies this`contacts, this`extras, this`jobs, this`education, this`skills, this`methodology,
               this`tools, this`technicalExpertise, this`achievements, this`draws
      ensures State() == Converted(codec, runtime, jsonData, old(State()))
      ensures config == ConfigOf(State())
    {
      ConvertContacts();
      ConvertWorkExperience();
      ConvertEducation();
      ConvertSkills();
      ConvertProjectsToAchievements();
      ConvertCertifications();
      AddObjective();
      config := ConfigData();
    }
  }
}

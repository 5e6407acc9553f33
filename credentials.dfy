/**
 * The credential store: the in-memory map of one service's credentials, the
 * path of the configuration file that backs it, its text rendering, and the
 * key list the interactive set-up asks for. Reading and writing the file is
 * not modelled; a profile section is given as the list of pairs it holds.
 */
module CredentialStore {
  import opened Wrappers

  /** The credential keys each service needs, per profile. */
  const Auth: map<string, map<string, seq<string>>> :=
    map["etoro" := map["api" := ["app_id", "app_secret", "long_access_token"]]]

  /** The profile section used for each service. */
  const DefaultProfile: map<string, string> := map["etoro" := "api"]

  /** The keys `configure` asks for; none when the service has no entry. */
  function ProfileKeys(service: string): (r: Option<seq<string>>)
    ensures r.Some? <==> service == "etoro"
    ensures r.Some? ==> r.value == ["app_id", "app_secret", "long_access_token"]
  {
    if service in Auth && service in DefaultProfile && DefaultProfile[service] in Auth[service]
    then Some(Auth[service][DefaultProfile[service]])
    else None
  }

  // ---------------------------------------------------------------------------
  // Paths

  /** POSIX `os.path.join(a, b)`. */
  function PathJoin(a: string, b: string): (r: string)
    ensures |r| >= |b| && r[|r| - |b|..] == b
    ensures |b| > 0 && b[0] == '/' ==> r == b
    ensures !(|b| > 0 && b[0] == '/') ==> |r| >= |a| && r[..|a|] == a
    ensures |r| <= |a| + 1 + |b|
    ensures a != "" && a[|a| - 1] != '/' && !(|b| > 0 && b[0] == '/') ==> r == a + "/" + b
    ensures (a == "" || a[|a| - 1] == '/') && !(|b| > 0 && b[0] == '/') ==> r == a + b
  {
    if |b| > 0 && b[0] == '/' then b
    else if a == "" || a[|a| - 1] == '/' then a + b
    else a + "/" + b
  }

  /**
   * The configuration file: home, then the folder, then the file name or else
   * the service. The path ends with that name; an absolute folder replaces home.
   */
  function ConfigPath(home: string, folder: string, filename: Option<string>, service: string): (r: string)
    ensures var name := filename.GetOr(service); |r| >= |name| && r[|r| - |name|..] == name
    ensures folder != "" && folder[0] == '/' && !(filename.GetOr(service) != "" && filename.GetOr(service)[0] == '/') ==>
              |r| >= |folder| && r[..|folder|] == folder
  {
    PathJoin(PathJoin(home, folder), filename.GetOr(service))
  }

  /**
   * The configuration file is `<home>/<folder>/<file name>`, the file name
   * being the service when none is given, whenever the parts are relative
   * names that do not already carry the slashes.
   */
  lemma ConfigPathShape(home: string, folder: string, filename: Option<string>, service: string)
    requires home != "" && home[|home| - 1] != '/'
    requires folder != "" && folder[0] != '/' && folder[|folder| - 1] != '/'
    requires filename.GetOr(service) != "" && filename.GetOr(service)[0] != '/'
    ensures ConfigPath(home, folder, filename, service) == home + "/" + folder + "/" + filename.GetOr(service)
  {
    var dir := home + "/" + folder;
    assert PathJoin(home, folder) == dir;
    assert dir[|dir| - 1] == folder[|folder| - 1];
  }

  // ---------------------------------------------------------------------------
  // Merging pairs into a map

  /** The map after assigning each pair in turn: a later pair overrides an earlier one. */
  function Merge(m: map<string, string>, ps: seq<(string, string)>): map<string, string> {
    if ps == [] then m else Merge(m, ps[..|ps| - 1])[ps[|ps| - 1].0 := ps[|ps| - 1].1]
  }

  /** The value of the last pair with key `k`, if any. */
  function Find(ps: seq<(string, string)>, k: string): Option<string> {
    if ps == [] then None
    else if ps[|ps| - 1].0 == k then Some(ps[|ps| - 1].1)
    else Find(ps[..|ps| - 1], k)
  }

  lemma {:induction false} FindSome(ps: seq<(string, string)>, k: string)
    ensures Find(ps, k).Some? <==> exists i :: 0 <= i < |ps| && ps[i].0 == k
  {
    if ps != [] {
      var init := ps[..|ps| - 1];
      FindSome(init, k);
      if ps[|ps| - 1].0 != k {
        forall i | 0 <= i < |ps| && ps[i].0 == k
          ensures exists j :: 0 <= j < |init| && init[j].0 == k
        {
          assert init[i] == ps[i];
        }
      }
    }
  }

  /**
   * After merging, a key holds the value of its last pair; a key that no pair
   * mentions keeps its old value, and no other key appears.
   */
  lemma {:induction false} MergeLookup(m: map<string, string>, ps: seq<(string, string)>, k: string)
    ensures k in Merge(m, ps) <==> k in m || Find(ps, k).Some?
    ensures Find(ps, k).Some? ==> Merge(m, ps)[k] == Find(ps, k).value
    ensures Find(ps, k).None? && k in m ==> Merge(m, ps)[k] == m[k]
  {
    if ps != [] {
      MergeLookup(m, ps[..|ps| - 1], k);
    }
  }

  /** Merging the same pairs a second time changes nothing. */
  lemma MergeIdempotent(m: map<string, string>, ps: seq<(string, string)>)
    ensures Merge(Merge(m, ps), ps) == Merge(m, ps)
  {
    var once := Merge(m, ps);
    var twice := Merge(once, ps);
    forall k
      ensures (k in twice <==> k in once) && (k in once ==> twice[k] == once[k])
    {
      MergeLookup(m, ps, k);
      MergeLookup(once, ps, k);
    }
  }

  /** Every key of `order` is a key of `m`. */
  ghost predicate Within(order: seq<string>, m: map<string, string>) {
    forall i :: 0 <= i < |order| ==> order[i] in m
  }

  /** `order` lists every key of `m` once: one iteration order of the dictionary. */
  ghost predicate Enumerates(order: seq<string>, m: map<string, string>) {
    && (forall i, j :: 0 <= i < j < |order| ==> order[i] != order[j])
    && (forall k :: k in m <==> k in order)
  }

  /** `m.items()` when the keys come out in the order `order`. */
  function Items(m: map<string, string>, order: seq<string>): (es: seq<(string, string)>)
    requires Within(order, m)
    ensures |es| == |order|
    ensures forall i :: 0 <= i < |order| ==> es[i] == (order[i], m[order[i]])
  {
    seq(|order|, i requires 0 <= i < |order| => (order[i], m[order[i]]))
  }

  lemma {:induction false} FindItems(m: map<string, string>, order: seq<string>, k: string)
    requires Within(order, m)
    ensures Find(Items(m, order), k) == if k in order then Some(m[k]) else None
  {
    if order != [] {
      var init := order[..|order| - 1];
      assert Items(m, order)[..|order| - 1] == Items(m, init);
      FindItems(m, init, k);
      assert k in order <==> k in init || order[|order| - 1] == k;
    }
  }

  /**
   * Merging a section whose pairs are a dictionary's items, taken in any
   * order, merges exactly that dictionary into the map.
   */
  lemma LoadItems(base: map<string, string>, d: map<string, string>, order: seq<string>)
    requires Enumerates(order, d)
    ensures Merge(base, Items(d, order)) == base + d
  {
    var merged := Merge(base, Items(d, order));
    forall k
      ensures (k in merged <==> k in base + d) && (k in merged ==> merged[k] == (base + d)[k])
    {
      MergeLookup(base, Items(d, order), k);
      FindItems(d, order, k);
    }
  }

  /** `dict.update`-style merging twice is merging once. */
  lemma UnionIdempotent(m: map<string, string>, d: map<string, string>)
    ensures (m + d) + d == m + d
  {
  }

  // ---------------------------------------------------------------------------
  // Text rendering

  /** `"{}: {}".format(k, v)`. */
  function Line(k: string, v: string): string {
    k + ": " + v
  }

  /** Total size of the lines: each holds its key, `": "` and its value. */
  function LinesSize(es: seq<(string, string)>): nat {
    if es == [] then 0 else |es[0].0| + 2 + |es[0].1| + LinesSize(es[1..])
  }

  /** The lines joined by newlines, with no newline after the last one. */
  function Render(es: seq<(string, string)>): (r: string)
    ensures es == [] ==> r == ""
    ensures es != [] ==> |r| == LinesSize(es) + |es| - 1
    ensures es != [] ==> |r| >= |Line(es[0].0, es[0].1)| && r[..|Line(es[0].0, es[0].1)|] == Line(es[0].0, es[0].1)
  {
    if es == [] then ""
    else if |es| == 1 then Line(es[0].0, es[0].1)
    else Line(es[0].0, es[0].1) + "\n" + Render(es[1..])
  }

  /** Rendering two runs of entries is rendering each, with one newline between. */
  lemma {:induction false} RenderConcat(a: seq<(string, string)>, b: seq<(string, string)>)
    requires a != [] && b != []
    ensures Render(a + b) == Render(a) + "\n" + Render(b)
  {
    assert (a + b)[0] == a[0];
    assert (a + b)[1..] == a[1..] + b;
    if |a| > 1 {
      RenderConcat(a[1..], b);
    }
  }

  /** One line per entry. */
  function Lines(es: seq<(string, string)>): (ls: seq<string>)
    ensures |ls| == |es|
    ensures forall i :: 0 <= i < |es| ==> ls[i] == Line(es[i].0, es[i].1)
  {
    seq(|es|, i requires 0 <= i < |es| => Line(es[i].0, es[i].1))
  }

  /** `s.split('\n')`. */
  function SplitLines(s: string): (r: seq<string>)
    ensures |r| >= 1
  {
    if s == [] then [""]
    else
      var rest := SplitLines(s[1..]);
      if s[0] == '\n' then [""] + rest else [[s[0]] + rest[0]] + rest[1..]
  }

  lemma {:induction false} SplitSingle(a: string)
    requires '\n' !in a
    ensures SplitLines(a) == [a]
  {
    if a != [] {
      SplitSingle(a[1..]);
      assert [a[0]] + a[1..] == a;
    }
  }

  lemma {:induction false} SplitFirst(a: string, b: string)
    requires '\n' !in a
    ensures SplitLines(a + "\n" + b) == [a] + SplitLines(b)
  {
    if a == [] {
      assert a + "\n" + b == "\n" + b;
      assert ("\n" + b)[1..] == b;
    } else {
      SplitFirst(a[1..], b);
      assert (a + "\n" + b)[1..] == a[1..] + "\n" + b;
      assert [a[0]] + a[1..] == a;
    }
  }

  /** No key or value holds a newline. */
  ghost predicate SingleLine(es: seq<(string, string)>) {
    forall i :: 0 <= i < |es| ==> '\n' !in es[i].0 && '\n' !in es[i].1
  }

  /**
   * Splitting the rendering at its newlines gives back one `k: v` line per
   * entry, in order, when no key or value holds a newline itself.
   */
  lemma {:induction false} RenderLines(es: seq<(string, string)>)
    ensures es != [] && SingleLine(es) ==> SplitLines(Render(es)) == Lines(es)
  {
    if es != [] && SingleLine(es) {
      var first := Line(es[0].0, es[0].1);
      assert '\n' !in first;
      if |es| == 1 {
        SplitSingle(first);
      } else {
        RenderLines(es[1..]);
        SplitFirst(first, Render(es[1..]));
      }
    }
  }

  // ---------------------------------------------------------------------------
  // Prompts

  /** `' '.join(k.split('_'))`: every underscore becomes a space. */
  function Spaced(k: string): (r: string)
    ensures |r| == |k|
    ensures forall i :: 0 <= i < |k| ==> r[i] == if k[i] == '_' then ' ' else k[i]
  {
    if k == "" then ""
    else [if k[0] == '_' then ' ' else k[0]] + Spaced(k[1..])
  }

  /** The prompt shown before reading the value of key `k`. */
  function Prompt(k: string): (r: string)
    ensures |r| == |k| + 8 && r[..6] == "Enter " && r[|r| - 2..] == ": "
    ensures forall i :: 0 <= i < |k| ==> r[6 + i] == if k[i] == '_' then ' ' else k[i]
  {
    "Enter " + Spaced(k) + ": "
  }

  /** No two entries of `keys` are equal. */
  ghost predicate Distinct(keys: seq<string>) {
    forall i, j :: 0 <= i < j < |keys| ==> keys[i] != keys[j]
  }

  /** Why `load` or `configure` stopped before doing their work. */
  datatype CredentialError =
    | UnknownService  // `KeyError` from the `Auth` or `DefaultProfile` table
    | EndOfInput      // `EOFError`: fewer answers than keys

  /**
   * What asking for `keys` with the input `answers` did: one prompt per key
   * read, stopping at the first missing answer, and on success one entry per
   * key holding that key's answer.
   */
  ghost predicate Asked(keys: seq<string>, answers: seq<string>, prompts: seq<string>,
                        r: Result<map<string, string>, CredentialError>)
  {
    && |prompts| == (if |answers| < |keys| then |answers| + 1 else |keys|)
    && (forall i :: 0 <= i < |prompts| ==> prompts[i] == Prompt(keys[i]))
    && (r.Ok? <==> |answers| >= |keys|)
    && (r.Err? ==> r.error == EndOfInput)
    && (r.Ok? ==> forall k :: k in r.value <==> k in keys)
    && (r.Ok? && Distinct(keys) ==> forall i :: 0 <= i < |keys| ==> r.value[keys[i]] == answers[i])
  }

  /** Prompts for each key in turn and stores the answer read under it. */
  method AskParams(keys: seq<string>, answers: seq<string>)
    returns (prompts: seq<string>, r: Result<map<string, string>, CredentialError>)
    ensures Asked(keys, answers, prompts, r)
  {
    var params: map<string, string> := map[];
    prompts := [];
    for i := 0 to |keys|
      invariant i <= |answers|
      invariant |prompts| == i
      invariant forall j :: 0 <= j < i ==> prompts[j] == Prompt(keys[j])
      invariant forall k :: k in params <==> k in keys[..i]
      invariant Distinct(keys) ==> forall j :: 0 <= j < i ==> params[keys[j]] == answers[j]
    {
      prompts := prompts + [Prompt(keys[i])];
      if i >= |answers| {
        return prompts, Err(EndOfInput);
      }
      assert keys[..i + 1] == keys[..i] + [keys[i]];
      params := params[keys[i] := answers[i]];
    }
    assert keys[..|keys|] == keys;
    r := Ok(params);
  }

  // ---------------------------------------------------------------------------
  // The store

  class Credentials {
    const service: string
    const credentialDir: string
    const configFile: string
    var credentials: map<string, string>

    /** `Credentials(service, credentials_folder, credentials_filename)`; `home` is the user's home directory. */
    constructor (service: string, home: string, credentialsFolder: string := ".credentials",
                 credentialsFilename: Option<string> := None)
      ensures this.service == service && Name() == service
      ensures credentialDir == PathJoin(home, credentialsFolder)
      ensures configFile == ConfigPath(home, credentialsFolder, credentialsFilename, service)
      ensures credentials == map[]
    {
      this.service := service;
      credentialDir := PathJoin(home, credentialsFolder);
      configFile := PathJoin(PathJoin(home, credentialsFolder), credentialsFilename.GetOr(service));
      credentials := map[];
    }

    /** The `name` property: the service the store was made for. */
    function Name(): (r: string)
      ensures r == service
    {
      service
    }

    /** Attribute lookup of a credential: its value, or `None` when the key is unset. */
    function Get(item: string): (r: Option<string>)
      reads this
      ensures r.Some? <==> item in credentials
      ensures r.Some? ==> r.value == credentials[item]
    {
      if item in credentials then Some(credentials[item]) else None
    }

    /** `str(credentials)`, the entries taken in the iteration order `order`. */
    function ToString(order: seq<string>): (s: string)
      reads this
      requires Enumerates(order, credentials)
      ensures credentials == map[] ==> s == ""
      ensures order != [] && SingleLine(Items(credentials, order)) ==>
                SplitLines(s) == Lines(Items(credentials, order))
    {
      RenderLines(Items(credentials, order));
      Render(Items(credentials, order))
    }

    /** `add`: assigns every pair of `valueDict` into the map, in no particular order. */
    method Add(valueDict: map<string, string>)
      modifies this
      ensures credentials == old(credentials) + valueDict
      ensures forall k :: Get(k) == if k in valueDict then Some(valueDict[k]) else old(Get(k))
    {
      var rest := valueDict.Keys;
      while rest != {}
        invariant rest <= valueDict.Keys
        invariant credentials == old(credentials) + map k | k in valueDict && k !in rest :: valueDict[k]
        decreases rest
      {
        var k :| k in rest;
        credentials := credentials[k := valueDict[k]];
        rest := rest - {k};
      }
      assert (map k | k in valueDict && k !in rest :: valueDict[k]) == valueDict;
    }

    /**
     * The merge loop of `load`: assigns each pair of the profile section in
     * turn. A service without a default profile fails with `KeyError` before
     * any pair is merged.
     */
    method Load(section: seq<(string, string)>) returns (r: Result<(), CredentialError>)
      modifies this
      ensures service !in DefaultProfile ==> r == Err(UnknownService) && credentials == old(credentials)
      ensures service in DefaultProfile ==> r == Ok(())
      ensures service in DefaultProfile ==> credentials == Merge(old(credentials), section)
      ensures service in DefaultProfile ==>
                forall k :: Get(k) == if Find(section, k).Some? then Find(section, k) else old(Get(k))
    {
      if service !in DefaultProfile {
        return Err(UnknownService);
      }
      for i := 0 to |section|
        invariant credentials == Merge(old(credentials), section[..i])
      {
        assert section[..i + 1][..i] == section[..i];
        credentials := credentials[section[i].0 := section[i].1];
      }
      assert section[..|section|] == section;
      forall k
        ensures Get(k) == if Find(section, k).Some? then Find(section, k) else old(Get(k))
      {
        MergeLookup(old(credentials), section, k);
      }
      r := Ok(());
    }

    /**
     * The loop of `configure` when it is given no parameters, for this
     * store's service; a service without a profile fails with `KeyError`.
     */
    method PromptParams(answers: seq<string>) returns (prompts: seq<string>, r: Result<map<string, string>, CredentialError>)
      ensures ProfileKeys(service).None? ==> prompts == [] && r == Err(UnknownService)
      ensures ProfileKeys(service).Some? ==> Asked(ProfileKeys(service).value, answers, prompts, r)
    {
      var profile := ProfileKeys(service);
      if profile.None? {
        return [], Err(UnknownService);
      }
      prompts, r := AskParams(profile.value, answers);
    }
  }
}

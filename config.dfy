/** The configuration tables every driver keeps in a `configparser.ConfigParser`:
    ordered sections of ordered `key = value` entries, the command-line override
    `update_from_args`, `getboolean`, and `get_config_dict`. */
module Config {
  import opened Wrappers
  import opened Strings

  datatype Entry = Entry(key: string, value: string)
  datatype Section = Section(name: string, entries: seq<Entry>)
  type Table = seq<Section>

  /** `section[key]`: the value stored under `key`, if any. A key is found
      exactly when some entry holds it, and then with that entry's value. */
  function Get(entries: seq<Entry>, key: string): (r: Option<string>)
    ensures r.Some? <==> exists i :: 0 <= i < |entries| && entries[i].key == key
    ensures r.Some? ==> exists i :: 0 <= i < |entries| && entries[i] == Entry(key, r.value)
  {
    if entries == [] then None
    else if entries[0].key == key then Some(entries[0].value)
    else
      var r := Get(entries[1..], key);
      assert forall i :: 0 < i < |entries| ==> entries[i] == entries[1..][i - 1];
      r
  }

  predicate HasKeys(entries: seq<Entry>, keys: set<string>) {
    forall k :: k in keys ==> Get(entries, k).Some?
  }

  /** A key stored at a known place can be looked up. */
  lemma GetAt(entries: seq<Entry>, j: nat, key: string)
    requires j < |entries| && entries[j].key == key
    ensures Get(entries, key).Some?
  {
  }

  /** `section[key]` where the key is known to be present. */
  function Value(entries: seq<Entry>, key: string): string
    requires Get(entries, key).Some?
  {
    Get(entries, key).value
  }

  /** `config[name]`: the entries of the section called `name`, if any. */
  function SectionOf(t: Table, name: string): (r: Option<seq<Entry>>)
    ensures r.Some? <==> exists i :: 0 <= i < |t| && t[i].name == name
    ensures r.Some? ==> exists i :: 0 <= i < |t| && t[i] == Section(name, r.value)
  {
    if t == [] then None
    else if t[0].name == name then Some(t[0].entries)
    else
      var r := SectionOf(t[1..], name);
      assert forall i :: 0 < i < |t| ==> t[i] == t[1..][i - 1];
      r
  }

  /** The section called `name` exists and holds every key in `keys`. */
  predicate HasSection(t: Table, name: string, keys: set<string>) {
    SectionOf(t, name).Some? && HasKeys(SectionOf(t, name).value, keys)
  }

  /** The entries of a section that `HasSection` guarantees. */
  function Entries(t: Table, name: string): seq<Entry>
    requires SectionOf(t, name).Some?
  {
    SectionOf(t, name).value
  }

  predicate UniqueKeys(entries: seq<Entry>) {
    forall i, j :: 0 <= i < j < |entries| ==> entries[i].key != entries[j].key
  }

  /** The keys of a section, in order. */
  function KeyList(entries: seq<Entry>): (ks: seq<string>)
    ensures |ks| == |entries|
    ensures forall i :: 0 <= i < |entries| ==> ks[i] == entries[i].key
  {
    seq(|entries|, i requires 0 <= i < |entries| => entries[i].key)
  }

  /** Every key named in `keys` is listed in the section, so looking it up succeeds. */
  lemma ListedKeysPresent(entries: seq<Entry>, keys: set<string>)
    requires forall k :: k in keys ==> k in KeyList(entries)
    ensures HasKeys(entries, keys)
  {
    forall k | k in keys ensures Get(entries, k).Some? {
      var i :| 0 <= i < |entries| && KeyList(entries)[i] == k;
      GetAt(entries, i, k);
    }
  }

  /** What configparser guarantees of every table: section names and the keys of a
      section are unique. */
  predicate WellFormed(t: Table) {
    && (forall i, j :: 0 <= i < j < |t| ==> t[i].name != t[j].name)
    && (forall i :: 0 <= i < |t| ==> UniqueKeys(t[i].entries))
  }

  /** The word lists of `ConfigParser.BOOLEAN_STATES`. */
  const TrueWords: set<string> := {"1", "yes", "true", "on"}
  const FalseWords: set<string> := {"0", "no", "false", "off"}

  /** `getboolean`: the value, lower-cased, must be one of the eight boolean words. */
  function GetBoolean(value: string): (r: Result<bool>)
    ensures r == Ok(true) <==> Lower(value) in TrueWords
    ensures r == Ok(false) <==> Lower(value) in FalseWords
    ensures r.Err? <==> Lower(value) !in TrueWords + FalseWords
    ensures r.Err? ==> r.error == NotABoolean(value)
  {
    var v := Lower(value);
    if v in TrueWords then Ok(true)
    else if v in FalseWords then Ok(false)
    else Err(NotABoolean(value))
  }

  /** `getboolean` does not depend on letter case. */
  lemma GetBooleanIgnoresCase(value: string)
    ensures GetBoolean(Lower(value)).Ok? == GetBoolean(value).Ok?
    ensures GetBoolean(value).Ok? ==> GetBoolean(Lower(value)) == GetBoolean(value)
  {
    LowerIdempotent(value);
  }

  /** The command-line argument that overrides `key` of section `section`. */
  function ArgName(section: string, key: string): string {
    Lower(section) + "_" + key
  }

  /** The argument is present and not `None`. */
  predicate Overrides(args: map<string, Option<string>>, section: string, key: string) {
    ArgName(section, key) in args && args[ArgName(section, key)].Some?
  }

  function OverrideEntry(section: string, e: Entry, args: map<string, Option<string>>): Entry {
    if Overrides(args, section, e.key) then Entry(e.key, args[ArgName(section, e.key)].value) else e
  }

  function OverrideSection(s: Section, args: map<string, Option<string>>): (r: Section)
    ensures r.name == s.name && |r.entries| == |s.entries|
    ensures forall j :: 0 <= j < |s.entries| ==> r.entries[j] == OverrideEntry(s.name, s.entries[j], args)
  {
    Section(s.name, seq(|s.entries|, j requires 0 <= j < |s.entries| => OverrideEntry(s.name, s.entries[j], args)))
  }

  /** The table after `update_from_args(args)`. */
  function Overridden(t: Table, args: map<string, Option<string>>): (r: Table)
    ensures |r| == |t|
    ensures forall i :: 0 <= i < |t| ==> r[i] == OverrideSection(t[i], args)
  {
    seq(|t|, i requires 0 <= i < |t| => OverrideSection(t[i], args))
  }

  /** Same sections, in the same order, with the same keys in the same order. */
  predicate SameShape(t: Table, u: Table) {
    && |t| == |u|
    && forall i :: 0 <= i < |t| ==>
         && t[i].name == u[i].name
         && |t[i].entries| == |u[i].entries|
         && forall j :: 0 <= j < |t[i].entries| ==> t[i].entries[j].key == u[i].entries[j].key
  }

  /** The override adds and removes no section and no key. */
  lemma OverrideKeepsShape(t: Table, args: map<string, Option<string>>)
    ensures SameShape(t, Overridden(t, args))
    ensures WellFormed(t) ==> WellFormed(Overridden(t, args))
  {
  }

  /** Looking a key up after the override: the argument's text when that argument
      is present and not `None`, the old value otherwise; absent keys stay absent. */
  lemma {:induction false} OverrideGet(entries: seq<Entry>, section: string, key: string, args: map<string, Option<string>>)
    ensures Get(OverrideSection(Section(section, entries), args).entries, key) ==
      if Get(entries, key).None? then None
      else if Overrides(args, section, key) then Some(args[ArgName(section, key)].value)
      else Get(entries, key)
  {
    var o := OverrideSection(Section(section, entries), args).entries;
    if entries != [] {
      var tail := OverrideSection(Section(section, entries[1..]), args).entries;
      assert o[1..] == tail;
      OverrideGet(entries[1..], section, key, args);
    }
  }

  /** Section by section, the override changes exactly the matched keys. */
  lemma OverrideFrame(t: Table, args: map<string, Option<string>>, i: nat, key: string)
    requires i < |t|
    ensures Get(Overridden(t, args)[i].entries, key) != Get(t[i].entries, key) ==>
      Overrides(args, t[i].name, key) && Get(t[i].entries, key).Some?
    ensures Overrides(args, t[i].name, key) && Get(t[i].entries, key).Some? ==>
      Get(Overridden(t, args)[i].entries, key) == Some(args[ArgName(t[i].name, key)].value)
  {
    OverrideGet(t[i].entries, t[i].name, key, args);
  }

  /** Applying the same arguments twice gives the table of applying them once. */
  lemma OverrideIdempotent(t: Table, args: map<string, Option<string>>)
    ensures Overridden(Overridden(t, args), args) == Overridden(t, args)
  {
    var once := Overridden(t, args);
    forall i | 0 <= i < |t| ensures OverrideSection(once[i], args) == once[i] {
      assert OverrideSection(once[i], args).entries == once[i].entries;
    }
  }

  /** `{s: dict(config.items(s)) for s in config.sections()}`. */
  function ConfigDict(t: Table): (d: map<string, map<string, string>>)
    ensures d.Keys == set i | 0 <= i < |t| :: t[i].name
  {
    var names := set i | 0 <= i < |t| :: t[i].name;
    map n | n in names :: SectionDict(SectionOf(t, n).value)
  }

  /** In a well-formed table, every entry of every section is in the dictionary. */
  lemma ConfigDictValues(t: Table, i: nat, j: nat)
    requires WellFormed(t) && i < |t| && j < |t[i].entries|
    ensures t[i].name in ConfigDict(t)
    ensures t[i].entries[j].key in ConfigDict(t)[t[i].name]
    ensures ConfigDict(t)[t[i].name][t[i].entries[j].key] == t[i].entries[j].value
  {
    UniqueSectionOf(t, i);
    UniqueGet(t[i].entries, j);
  }

  /** `dict(section.items())`. */
  function SectionDict(entries: seq<Entry>): (m: map<string, string>)
    ensures m.Keys == set j | 0 <= j < |entries| :: entries[j].key
    ensures forall k :: k in m ==> Get(entries, k) == Some(m[k])
  {
    var keys := set j | 0 <= j < |entries| :: entries[j].key;
    assert forall k :: k in keys ==> Get(entries, k).Some? by {
      forall k | k in keys ensures Get(entries, k).Some? {
        var j :| 0 <= j < |entries| && entries[j].key == k;
        GetAt(entries, j, k);
      }
    }
    map k | k in keys :: Get(entries, k).value
  }

  lemma {:induction false} UniqueGet(entries: seq<Entry>, j: nat)
    requires UniqueKeys(entries) && j < |entries|
    ensures Get(entries, entries[j].key) == Some(entries[j].value)
  {
    if j > 0 {
      assert UniqueKeys(entries[1..]);
      assert entries[1..][j - 1] == entries[j];
      UniqueGet(entries[1..], j - 1);
    }
  }

  lemma {:induction false} UniqueSectionOf(t: Table, i: nat)
    requires WellFormed(t) && i < |t|
    ensures SectionOf(t, t[i].name) == Some(t[i].entries)
  {
    if i > 0 {
      assert WellFormed(t[1..]);
      assert t[1..][i - 1] == t[i];
      UniqueSectionOf(t[1..], i - 1);
    }
  }

  /** The override keeps every section and key, so key requirements survive it. */
  lemma OverrideKeepsSections(t: Table, args: map<string, Option<string>>, name: string, keys: set<string>)
    requires HasSection(t, name, keys)
    ensures HasSection(Overridden(t, args), name, keys)
  {
    var u := Overridden(t, args);
    OverrideSectionOf(t, args, name);
    var e := Entries(t, name);
    forall k | k in keys ensures Get(Entries(u, name), k).Some? {
      OverrideGet(e, name, k, args);
    }
  }

  /** The override keeps the section `name` and every key in it. */
  lemma OverrideKeepsKeys(t: Table, args: map<string, Option<string>>, name: string)
    requires SectionOf(t, name).Some?
    ensures SectionOf(Overridden(t, args), name).Some?
    ensures forall k :: Get(Entries(t, name), k).Some? ==> Get(Entries(Overridden(t, args), name), k).Some?
  {
    OverrideSectionOf(t, args, name);
    forall k ensures Get(Entries(t, name), k).Some? ==> Get(Entries(Overridden(t, args), name), k).Some? {
      OverrideGet(Entries(t, name), name, k, args);
    }
  }

  /** A section holding every key another holds keeps each of the listed keys. */
  lemma KeptAt(s: seq<Entry>, s': seq<Entry>, keys: seq<string>)
    requires forall k :: Get(s, k).Some? ==> Get(s', k).Some?
    ensures forall k | k in keys :: Get(s, k).Some? ==> Get(s', k).Some?
  {
  }

  lemma {:induction false} OverrideSectionOf(t: Table, args: map<string, Option<string>>, name: string)
    ensures SectionOf(Overridden(t, args), name) ==
      if SectionOf(t, name).None? then None
      else Some(OverrideSection(Section(name, SectionOf(t, name).value), args).entries)
  {
    if t != [] {
      var u := Overridden(t, args);
      assert u[1..] == Overridden(t[1..], args);
      OverrideSectionOf(t[1..], args, name);
    }
  }

  /** The object that owns a table and updates it in place. */
  class ConfigStore {
    var table: Table

    /** `config.read_dict(DEFAULT_CONFIG)` on a fresh parser. */
    constructor (defaults: Table)
      ensures table == defaults
    {
      table := defaults;
    }

    /** `update_from_args`: every `section.key` whose argument `section_key`
        (section name lower-cased) is present and not `None` takes that text. */
    method UpdateFromArgs(args: map<string, Option<string>>)
      modifies this
      ensures table == Overridden(old(table), args)
    {
      var i := 0;
      while i < |table|
        invariant 0 <= i <= |table| == |old(table)|
        invariant forall k :: 0 <= k < i ==> table[k] == OverrideSection(old(table)[k], args)
        invariant forall k :: i <= k < |table| ==> table[k] == old(table)[k]
      {
        var name := table[i].name;
        var j := 0;
        while j < |table[i].entries|
          invariant |table| == |old(table)|
          invariant table[i].name == name == old(table)[i].name
          invariant |table[i].entries| == |old(table)[i].entries|
          invariant 0 <= j <= |table[i].entries|
          invariant forall m :: 0 <= m < j ==> table[i].entries[m] == OverrideEntry(name, old(table)[i].entries[m], args)
          invariant forall m :: j <= m < |table[i].entries| ==> table[i].entries[m] == old(table)[i].entries[m]
          invariant forall k :: 0 <= k < |table| && k != i ==> table[k] == (if k < i then OverrideSection(old(table)[k], args) else old(table)[k])
        {
          var key := table[i].entries[j].key;
          var argName := Lower(name) + "_" + key;
          if argName in args && args[argName].Some? {
            table := table[i := table[i].(entries := table[i].entries[j := Entry(key, args[argName].value)])];
          }
          j := j + 1;
        }
        assert table[i] == OverrideSection(old(table)[i], args);
        i := i + 1;
      }
    }
  }
}

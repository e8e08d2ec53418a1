/** Translation lookup and `{{token}}` substitution of the toolkit's
    `I18nUtilities` class. */
module I18n {
  import opened Wrappers

  /** The locale name whose table `GetDefault` reads. */
  const DefaultLocale: string := "default"

  /*********
  ** Characters and strings
  *********/

  /** .NET `char.IsWhiteSpace`: U+0009 to U+000D, U+0085 and the Unicode
      space, line and paragraph separators. */
  predicate IsWhiteSpace(c: char) {
    || c == ' ' || '\t' <= c <= '\r' || c == '\U{85}' || c == '\U{A0}' || c == '\U{1680}'
    || '\U{2000}' <= c <= '\U{200A}' || c == '\U{2028}' || c == '\U{2029}'
    || c == '\U{202F}' || c == '\U{205F}' || c == '\U{3000}'
  }

  /** The regular-expression class `\w`, over ASCII. */
  predicate IsWordChar(c: char) {
    'a' <= c <= 'z' || 'A' <= c <= 'Z' || '0' <= c <= '9' || c == '_'
  }

  /** The class `[ \w\.\-]` a token name is made of. */
  predicate IsNameChar(c: char) {
    c == ' ' || IsWordChar(c) || c == '.' || c == '-'
  }

  /** `string.IsNullOrWhiteSpace` on a non-null string. */
  predicate IsBlank(s: string) {
    forall i :: 0 <= i < |s| ==> IsWhiteSpace(s[i])
  }

  /** `string.TrimStart()`: drops the leading white space. */
  function TrimStart(s: string): (r: string)
    ensures |r| <= |s|
  {
    if s != [] && IsWhiteSpace(s[0]) then TrimStart(s[1..]) else s
  }

  /** `string.TrimEnd()`: drops the trailing white space. */
  function TrimEnd(s: string): (r: string)
    ensures |r| <= |s|
  {
    if s != [] && IsWhiteSpace(s[|s| - 1]) then TrimEnd(s[..|s| - 1]) else s
  }

  /** `TrimStart` keeps a suffix that does not start with white space, and
      everything it drops is white space. */
  lemma {:induction false} TrimStartDropsLeadingSpace(s: string)
    ensures var r := TrimStart(s);
      && r == s[|s| - |r|..]
      && (forall i :: 0 <= i < |s| - |r| ==> IsWhiteSpace(s[i]))
      && (r == [] || !IsWhiteSpace(r[0]))
  {
    if s != [] && IsWhiteSpace(s[0]) {
      var t := s[1..];
      TrimStartDropsLeadingSpace(t);
      var r := TrimStart(t);
      assert TrimStart(s) == r;
      assert t[|t| - |r|..] == s[|s| - |r|..];
      forall i | 1 <= i < |s| - |r|
        ensures IsWhiteSpace(s[i])
      {
        assert s[i] == t[i - 1];
      }
    }
  }

  /** `TrimEnd` keeps a prefix that does not end with white space, and
      everything it drops is white space. */
  lemma {:induction false} TrimEndDropsTrailingSpace(s: string)
    ensures var r := TrimEnd(s);
      && r == s[..|r|]
      && (forall i :: |r| <= i < |s| ==> IsWhiteSpace(s[i]))
      && (r == [] || !IsWhiteSpace(r[|r| - 1]))
  {
    if s != [] && IsWhiteSpace(s[|s| - 1]) {
      var t := s[..|s| - 1];
      TrimEndDropsTrailingSpace(t);
      var r := TrimEnd(t);
      assert TrimEnd(s) == r;
      assert t[..|r|] == s[..|r|];
      forall i | |r| <= i < |s| - 1
        ensures IsWhiteSpace(s[i])
      {
        assert s[i] == t[i];
      }
    }
  }

  /** `string.Trim()`: white space at neither end of the result. */
  function Trim(s: string): (r: string)
    ensures |r| <= |s|
    ensures r == [] || (!IsWhiteSpace(r[0]) && !IsWhiteSpace(r[|r| - 1]))
  {
    TrimStartDropsLeadingSpace(s);
    TrimEndDropsTrailingSpace(TrimStart(s));
    TrimEnd(TrimStart(s))
  }

  /** `Trim` keeps the slice of `s` that starts after its leading white
      space and has white space at neither end. */
  lemma TrimIsInnerSlice(s: string)
    ensures var r := Trim(s); var a := |s| - |TrimStart(s)|;
      && a + |r| <= |s| && r == s[a..a + |r|]
      && (r == [] || (!IsWhiteSpace(r[0]) && !IsWhiteSpace(r[|r| - 1])))
  {
    var t := TrimStart(s);
    TrimStartDropsLeadingSpace(s);
    TrimEndDropsTrailingSpace(t);
    assert TrimEnd(t) == s[|s| - |t|..][..|TrimEnd(t)|];
  }

  /** What `Trim` drops on either side is white space only. */
  lemma TrimDropsOnlySpace(s: string)
    ensures var r := Trim(s); var a := |s| - |TrimStart(s)|;
      && a + |r| <= |s| && IsBlank(s[..a]) && IsBlank(s[a + |r|..])
  {
    var t := TrimStart(s);
    TrimStartDropsLeadingSpace(s);
    TrimEndDropsTrailingSpace(t);
    var r := TrimEnd(t);
    var a := |s| - |t|;
    var head := s[..a];
    forall i | 0 <= i < |head|
      ensures IsWhiteSpace(head[i])
    {
      assert head[i] == s[i];
    }
    var tail := s[a + |r|..];
    forall i | 0 <= i < |tail|
      ensures IsWhiteSpace(tail[i])
    {
      assert tail[i] == t[|r| + i];
    }
  }

  /** The upper-case mapping `StringComparer.OrdinalIgnoreCase` compares by. */
  function ToUpper(c: char): char {
    if 'a' <= c <= 'z' then (c as int - 32) as char else c
  }

  /** The canonical form of a key under `OrdinalIgnoreCase`: two keys are
      equal under that comparer exactly when their folded forms are equal. */
  function FoldKey(s: string): string {
    seq(|s|, i requires 0 <= i < |s| => ToUpper(s[i]))
  }

  /** `StringComparer.OrdinalIgnoreCase.Equals`: same length, and equal
      characters position by position once both are upper-cased. */
  predicate EqualsIgnoreCase(a: string, b: string) {
    |a| == |b| && forall i :: 0 <= i < |a| ==> ToUpper(a[i]) == ToUpper(b[i])
  }

  /** Storing keys in folded form makes the lookup case-insensitive: two keys
      fold alike exactly when the comparer calls them equal. */
  lemma FoldKeyIsIgnoreCase(a: string, b: string)
    ensures FoldKey(a) == FoldKey(b) <==> EqualsIgnoreCase(a, b)
  {
    if FoldKey(a) == FoldKey(b) {
      assert |a| == |FoldKey(a)|;
      forall i | 0 <= i < |a|
        ensures ToUpper(a[i]) == ToUpper(b[i])
      {
        assert FoldKey(a)[i] == FoldKey(b)[i];
      }
    }
  }

  /*********
  ** Token sources
  *********/

  /** One `DictionaryEntry` of a dictionary passed as tokens: the result of
      `Key.ToString()` and of `Value?.ToString()`, each of which may be null. */
  datatype Entry = Entry(key: Option<string>, value: Option<string>)

  /** One public property or field of an object passed as tokens: its name
      and the result of `GetValue(tokens)?.ToString()`. */
  datatype Member = Member(name: string, value: Option<string>)

  /** What `tokens` is at run time: a dictionary (its entries in enumeration
      order), or any other object (its public properties, then its public
      fields, as reflection lists them). */
  datatype Tokens =
    | Dictionary(entries: seq<Entry>)
    | Members(properties: seq<Member>, fields: seq<Member>)

  /** The case-insensitive `tokenLookup` dictionary, keyed by `FoldKey` of
      each key; a null value is `None`. */
  type Lookup = map<string, Option<string>>

  /** The key under which a dictionary entry is stored: trimmed, then folded. */
  function EntryKey(e: Entry): string
    requires e.key.Some?
  {
    FoldKey(Trim(e.key.value))
  }

  /** The lookup after storing the given dictionary entries in order. */
  function EntriesLookup(entries: seq<Entry>): Lookup
  {
    if entries == [] then map[]
    else
      var e := entries[|entries| - 1];
      var m := EntriesLookup(entries[..|entries| - 1]);
      if e.key.Some? then m[EntryKey(e) := e.value] else m
  }

  /** `init` after storing the given members in order, keyed by their
      (untrimmed) names. */
  function MembersLookup(init: Lookup, members: seq<Member>): Lookup
  {
    if members == [] then init
    else
      var p := members[|members| - 1];
      MembersLookup(init, members[..|members| - 1])[FoldKey(p.name) := p.value]
  }

  /** The lookup `ReplaceTokens` builds from `tokens`. */
  function LookupOf(tokens: Tokens): Lookup
  {
    match tokens
    case Dictionary(entries) => EntriesLookup(entries)
    case Members(properties, fields) => MembersLookup(MembersLookup(map[], properties), fields)
  }

  /** Keys of the dictionary lookup are exactly the trimmed, folded keys of the
      entries whose key is not null. */
  lemma {:induction false} EntriesLookupKeys(entries: seq<Entry>, k: string)
    ensures k in EntriesLookup(entries)
      <==> exists j :: 0 <= j < |entries| && entries[j].key.Some? && EntryKey(entries[j]) == k
  {
    if entries == [] {
      return;
    }
    var last := |entries| - 1;
    var front := entries[..last];
    EntriesLookupKeys(front, k);
    if k in EntriesLookup(entries) {
      if entries[last].key.Some? && EntryKey(entries[last]) == k {
        assert 0 <= last < |entries|;
      } else {
        var j :| 0 <= j < |front| && front[j].key.Some? && EntryKey(front[j]) == k;
        assert entries[j] == front[j];
      }
    }
    if exists j :: 0 <= j < |entries| && entries[j].key.Some? && EntryKey(entries[j]) == k {
      var j :| 0 <= j < |entries| && entries[j].key.Some? && EntryKey(entries[j]) == k;
      if j < last {
        assert front[j] == entries[j];
      }
    }
  }

  /** Of several entries whose keys are equal once trimmed and folded, the
      last one's value is the one stored. */
  lemma {:induction false} LastEntryWins(entries: seq<Entry>, j: nat)
    requires j < |entries| && entries[j].key.Some?
    requires forall i :: j < i < |entries| && entries[i].key.Some? ==> EntryKey(entries[i]) != EntryKey(entries[j])
    ensures EntryKey(entries[j]) in EntriesLookup(entries)
    ensures EntriesLookup(entries)[EntryKey(entries[j])] == entries[j].value
  {
    var init := entries[..|entries| - 1];
    if j < |entries| - 1 {
      assert init[j] == entries[j];
      forall i | j < i < |init| && init[i].key.Some?
        ensures EntryKey(init[i]) != EntryKey(init[j])
      {
        assert init[i] == entries[i];
      }
      LastEntryWins(init, j);
    }
  }

  /** A key that no member's name folds to keeps its entry from `init`. */
  lemma {:induction false} MembersLookupKeepsOthers(init: Lookup, members: seq<Member>, k: string)
    requires forall i :: 0 <= i < |members| ==> FoldKey(members[i].name) != k
    ensures k in MembersLookup(init, members) <==> k in init
    ensures k in init ==> MembersLookup(init, members)[k] == init[k]
  {
    if members != [] {
      var front := members[..|members| - 1];
      assert forall i :: 0 <= i < |front| ==> front[i] == members[i];
      MembersLookupKeepsOthers(init, front, k);
    }
  }

  /** Of several members whose names fold to the same key, the last one's
      value is the one stored. */
  lemma {:induction false} LastMemberWins(init: Lookup, members: seq<Member>, j: nat)
    requires j < |members|
    requires forall i :: j < i < |members| ==> FoldKey(members[i].name) != FoldKey(members[j].name)
    ensures FoldKey(members[j].name) in MembersLookup(init, members)
    ensures MembersLookup(init, members)[FoldKey(members[j].name)] == members[j].value
  {
    var front := members[..|members| - 1];
    if j < |front| {
      assert front[j] == members[j];
      assert forall i :: j < i < |front| ==> front[i] == members[i];
      LastMemberWins(init, front, j);
    }
  }

  /** Fields are stored after properties: a field (the last one with its
      folded name) overrides a property whose name folds to the same key. */
  lemma FieldOverridesProperty(properties: seq<Member>, fields: seq<Member>, j: nat)
    requires j < |fields|
    requires forall i :: j < i < |fields| ==> FoldKey(fields[i].name) != FoldKey(fields[j].name)
    ensures var lookup := LookupOf(Members(properties, fields));
      FoldKey(fields[j].name) in lookup && lookup[FoldKey(fields[j].name)] == fields[j].value
  {
    LastMemberWins(MembersLookup(map[], properties), fields, j);
  }

  /** A property (the last one with its folded name) that no field's name
      folds to keeps its value in the lookup. */
  lemma PropertyKeptUnlessField(properties: seq<Member>, fields: seq<Member>, j: nat)
    requires j < |properties|
    requires forall i :: j < i < |properties| ==> FoldKey(properties[i].name) != FoldKey(properties[j].name)
    requires forall i :: 0 <= i < |fields| ==> FoldKey(fields[i].name) != FoldKey(properties[j].name)
    ensures var lookup := LookupOf(Members(properties, fields));
      FoldKey(properties[j].name) in lookup && lookup[FoldKey(properties[j].name)] == properties[j].value
  {
    var k := FoldKey(properties[j].name);
    LastMemberWins(map[], properties, j);
    MembersLookupKeepsOthers(MembersLookup(map[], properties), fields, k);
  }

  /** Builds `tokenLookup` with the two `foreach` loops of `ReplaceTokens`. */
  method BuildLookup(tokens: Tokens) returns (lookup: Lookup)
    ensures lookup == LookupOf(tokens)
  {
    lookup := map[];
    match tokens {
      case Dictionary(entries) =>
        var i := 0;
        while i < |entries|
          invariant 0 <= i <= |entries|
          invariant lookup == EntriesLookup(entries[..i])
        {
          var key := if entries[i].key.Some? then Some(Trim(entries[i].key.value)) else None;
          if key.Some? {
            lookup := lookup[FoldKey(key.value) := entries[i].value];
          }
          assert entries[..i + 1][..i] == entries[..i];
          i := i + 1;
        }
        assert entries[..i] == entries;
      case Members(properties, fields) =>
        lookup := AddMembers(lookup, properties);
        lookup := AddMembers(lookup, fields);
    }
  }

  /** One reflection `foreach`: stores each member under its name. */
  method AddMembers(init: Lookup, members: seq<Member>) returns (lookup: Lookup)
    ensures lookup == MembersLookup(init, members)
  {
    lookup := init;
    var i := 0;
    while i < |members|
      invariant 0 <= i <= |members|
      invariant lookup == MembersLookup(init, members[..i])
    {
      lookup := lookup[FoldKey(members[i].name) := members[i].value];
      assert members[..i + 1][..i] == members[..i];
      i := i + 1;
    }
    assert members[..i] == members;
  }

  /*********
  ** Substitution
  *********/

  /** Length of the maximal run of name characters that `s` starts with. */
  function NameLength(s: string): (n: nat)
    ensures n <= |s|
    ensures forall k :: 0 <= k < n ==> IsNameChar(s[k])
    ensures n == |s| || !IsNameChar(s[n])
  {
    if s != [] && IsNameChar(s[0]) then 1 + NameLength(s[1..]) else 0
  }

  /** A non-empty run of name characters: what the group `([ \w\.\-]+)` can
      capture. */
  predicate IsName(w: string) {
    w != [] && forall k :: 0 <= k < |w| ==> IsNameChar(w[k])
  }

  /** `s` starts with a match of `{{([ \w\.\-]+)}}` whose name group has
      length `n`. */
  predicate IsTokenOf(s: string, n: nat) {
    && n + 4 <= |s|
    && s[0] == '{' && s[1] == '{'
    && IsName(s[2..n + 2])
    && s[n + 2] == '}' && s[n + 3] == '}'
  }

  /** The regular expression tried at the start of `s`: the length of the
      name group when it matches there, `None` when it does not. */
  function TokenAt(s: string): (r: Option<nat>)
    ensures r.Some? ==> IsTokenOf(s, r.value)
    ensures r.None? ==> forall n :: !IsTokenOf(s, n)
  {
    if |s| >= 2 && s[0] == '{' && s[1] == '{' then
      var n := NameLength(s[2..]);
      if 0 < n && n + 4 <= |s| && s[n + 2] == '}' && s[n + 3] == '}' then Some(n) else None
    else None
  }

  /** A match at a given position has only one possible length: the name
      class excludes `}`, so no backtracking can find a second one. */
  lemma TokenIsUnique(s: string, n: nat, m: nat)
    requires IsTokenOf(s, n) && IsTokenOf(s, m)
    ensures n == m
  {
  }

  /** `Regex.Replace(text, @"{{([ \w\.\-]+)}}", evaluator)`: one left-to-right
      scan; after a match the scan resumes behind it, otherwise one character
      is copied and the scan moves on. The evaluator replaces a match by the
      value stored under its trimmed name, by `""` for a null value, or by the
      the matched text itself when the name is unknown. */
  function Substitute(s: string, lookup: Lookup): string
    decreases |s|
  {
    if s == [] then []
    else
      match TokenAt(s)
      case Some(n) =>
        var key := FoldKey(Trim(s[2..n + 2]));
        var replacement := if key in lookup then (if lookup[key].Some? then lookup[key].value else "") else s[..n + 4];
        replacement + Substitute(s[n + 4..], lookup)
      case None => [s[0]] + Substitute(s[1..], lookup)
  }

  /** A recognised token followed by anything: the token alone is replaced
      (by its value, by `""` for null, or by itself when unknown), and the
      inserted value is not scanned again. */
  lemma SubstituteToken(name: string, rest: string, lookup: Lookup)
    requires IsName(name)
    ensures var key := FoldKey(Trim(name));
      var out := Substitute("{{" + name + "}}" + rest, lookup);
      && (key in lookup && lookup[key].Some? ==> out == lookup[key].value + Substitute(rest, lookup))
      && (key in lookup && lookup[key].None? ==> out == Substitute(rest, lookup))
      && (key !in lookup ==> out == "{{" + name + "}}" + Substitute(rest, lookup))
  {
    var s := "{{" + name + "}}" + rest;
    var n := |name|;
    assert IsTokenOf(s, n);
    var m := TokenAt(s).value;
    TokenIsUnique(s, n, m);
    assert s[..n + 4] == "{{" + name + "}}";
    assert s[2..n + 2] == name;
    assert s[n + 4..] == rest;
  }

  /** A text that does not start with `{` starts with no token: its first
      character is copied and the scan moves on. */
  lemma SubstituteCopiesPlainChar(s: string, lookup: Lookup)
    requires s != [] && s[0] != '{'
    ensures Substitute(s, lookup) == [s[0]] + Substitute(s[1..], lookup)
  {
    assert TokenAt(s).None?;
  }

  /** Text without `{` is copied unchanged, and the scan after it is that of
      the remaining text. */
  lemma {:induction false} SubstitutePlainPrefix(p: string, rest: string, lookup: Lookup)
    requires forall k :: 0 <= k < |p| ==> p[k] != '{'
    ensures Substitute(p + rest, lookup) == p + Substitute(rest, lookup)
  {
    if p == [] {
      assert p + rest == rest;
    } else {
      var s := p + rest;
      assert s[0] == p[0] && s[1..] == p[1..] + rest;
      SubstituteCopiesPlainChar(s, lookup);
      SubstitutePlainPrefix(p[1..], rest, lookup);
      assert [p[0]] + (p[1..] + Substitute(rest, lookup)) == p + Substitute(rest, lookup);
    }
  }

  /** `s` starts with a token whose trimmed, folded name is in the lookup. */
  predicate KnownTokenAt(s: string, lookup: Lookup) {
    match TokenAt(s)
    case Some(n) => FoldKey(Trim(s[2..n + 2])) in lookup
    case None => false
  }

  /** No position of `s` starts a token whose name is in the lookup. */
  predicate NoKnownToken(s: string, lookup: Lookup) {
    forall i :: 0 <= i <= |s| ==> !KnownTokenAt(s[i..], lookup)
  }

  /** Every suffix of a text without known tokens has none either. */
  lemma NoKnownTokenSuffix(s: string, step: nat, lookup: Lookup)
    requires step <= |s| && NoKnownToken(s, lookup)
    ensures NoKnownToken(s[step..], lookup)
  {
    var t := s[step..];
    forall i | 0 <= i <= |t|
      ensures !KnownTokenAt(t[i..], lookup)
    {
      assert t[i..] == s[step + i..];
    }
  }

  /** A text in which no token has a known name comes out of the scan
      unchanged: every match is left verbatim. */
  lemma {:induction false} SubstituteUnknownTokens(s: string, lookup: Lookup)
    requires NoKnownToken(s, lookup)
    ensures Substitute(s, lookup) == s
    decreases |s|
  {
    if s == [] {
      return;
    }
    assert !KnownTokenAt(s[0..], lookup);
    assert s[0..] == s;
    match TokenAt(s)
    case Some(n) =>
      NoKnownTokenSuffix(s, n + 4, lookup);
      SubstituteUnknownTokens(s[n + 4..], lookup);
      assert s[..n + 4] + s[n + 4..] == s;
    case None =>
      NoKnownTokenSuffix(s, 1, lookup);
      SubstituteUnknownTokens(s[1..], lookup);
      assert [s[0]] + s[1..] == s;
  }

  /** With an empty lookup every text comes out unchanged. */
  lemma SubstituteEmptyLookup(s: string)
    ensures Substitute(s, map[]) == s
  {
    SubstituteUnknownTokens(s, map[]);
  }

  /** `{{}}` has an empty name and is not a token. */
  lemma EmptyNameIsNotAToken(lookup: Lookup)
    ensures Substitute("{{}}", lookup) == "{{}}"
  {
    var s := "{{}}";
    assert TokenAt(s).None? by { assert !IsNameChar(s[2]); }
    assert TokenAt(s[1..]).None?;
    SubstitutePlainPrefix("}}", [], lookup);
    assert s[1..][1..] == "}}";
  }

  /** `{{a/b}}` contains `/`, which no name may, and is not a token. */
  lemma SlashNameIsNotAToken(lookup: Lookup)
    ensures Substitute("{{a/b}}", lookup) == "{{a/b}}"
  {
    var s := "{{a/b}}";
    assert TokenAt(s).None? by {
      assert NameLength(s[2..]) == 1 by {
        assert s[2..][1..] == "/b}}";
      }
    }
    assert TokenAt(s[1..]).None?;
    SubstitutePlainPrefix("a/b}}", [], lookup);
    assert s[1..][1..] == "a/b}}";
  }

  /*********
  ** ReplaceTokens, Get, GetDefault
  *********/

  /** What `ReplaceTokens` returns: the text itself when it is null or blank or
      there are no tokens, otherwise its substitution over the token lookup. */
  function ReplacedText(text: Option<string>, tokens: Option<Tokens>): Option<string> {
    if text.None? || IsBlank(text.value) || tokens.None? then text
    else Some(Substitute(text.value, LookupOf(tokens.value)))
  }

  method ReplaceTokens(text: Option<string>, tokens: Option<Tokens>) returns (r: Option<string>)
    ensures r == ReplacedText(text, tokens)
  {
    if text.None? || IsBlank(text.value) || tokens.None? {
      return text;
    }
    var tokenLookup := BuildLookup(tokens.value);
    r := Some(Substitute(text.value, tokenLookup));
  }

  /** A token whose trimmed, folded name is the key of a dictionary entry (the
      last one with that key) is replaced by that entry's value. */
  lemma DictionaryTokenReplaced(entries: seq<Entry>, j: nat, name: string, rest: string)
    requires IsName(name)
    requires j < |entries| && entries[j].key.Some? && EntryKey(entries[j]) == FoldKey(Trim(name))
    requires forall i :: j < i < |entries| && entries[i].key.Some? ==> EntryKey(entries[i]) != EntryKey(entries[j])
    ensures Substitute("{{" + name + "}}" + rest, EntriesLookup(entries))
      == (if entries[j].value.Some? then entries[j].value.value else "") + Substitute(rest, EntriesLookup(entries))
  {
    var lookup := EntriesLookup(entries);
    LastEntryWins(entries, j);
    SubstituteToken(name, rest, lookup);
  }

  /** A null, blank or token-less text comes back as it is, and so does any
      text given an empty dictionary or an object without public members. */
  lemma ReplacedTextUnchanged(text: Option<string>, tokens: Option<Tokens>)
    requires || text.None? || IsBlank(text.value) || tokens.None?
             || tokens == Some(Dictionary([])) || tokens == Some(Members([], []))
    ensures ReplacedText(text, tokens) == text
  {
    if text.Some? && tokens.Some? && !IsBlank(text.value) {
      assert LookupOf(tokens.value) == map[];
      SubstituteEmptyLookup(text.value);
    }
  }

  /** Why `Get`/`GetDefault` fail: the table of the locale is not loaded (the
      method's own exception) or the table has no entry for the key (the
      dictionary indexer's exception). */
  datatype I18nError = NotLoaded | KeyNotFound(key: string)

  /** The static state of `I18nUtilities`: the translation tables by locale
      (an entry may be null in the JSON file) and the current locale. */
  class I18nUtilities {
    var translations: map<string, map<string, Option<string>>>
    var locale: string

    /** The static initialisers: no tables, locale `default`. */
    constructor ()
      ensures translations == map[] && locale == DefaultLocale
    {
      translations := map[];
      locale := DefaultLocale;
    }

    /** The state `Init` leaves behind once it has read the tables and the
        system locale. */
    constructor Loaded(translations: map<string, map<string, Option<string>>>, locale: string)
      ensures this.translations == translations && this.locale == locale
    {
      this.translations := translations;
      this.locale := locale;
    }

    method Get(key: string, tokens: Option<Tokens>) returns (r: Result<Option<string>, I18nError>)
      ensures locale !in translations ==> r == Failure(NotLoaded)
      ensures locale in translations && key !in translations[locale] ==> r == Failure(KeyNotFound(key))
      ensures locale in translations && key in translations[locale]
        ==> r == Success(ReplacedText(translations[locale][key], tokens))
    {
      if locale !in translations {
        return Failure(NotLoaded);
      }
      var table := translations[locale];
      if key !in table {
        return Failure(KeyNotFound(key));
      }
      var text := ReplaceTokens(table[key], tokens);
      r := Success(text);
    }

    method GetDefault(key: string, tokens: Option<Tokens>) returns (r: Result<Option<string>, I18nError>)
      ensures DefaultLocale !in translations ==> r == Failure(NotLoaded)
      ensures DefaultLocale in translations && key !in translations[DefaultLocale] ==> r == Failure(KeyNotFound(key))
      ensures DefaultLocale in translations && key in translations[DefaultLocale]
        ==> r == Success(ReplacedText(translations[DefaultLocale][key], tokens))
    {
      if DefaultLocale !in translations {
        return Failure(NotLoaded);
      }
      var table := translations[DefaultLocale];
      if key !in table {
        return Failure(KeyNotFound(key));
      }
      var text := ReplaceTokens(table[key], tokens);
      r := Success(text);
    }
  }
}

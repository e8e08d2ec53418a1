# SMAPI mod-API facade and translation tokens, in Dafny

This project models two parts of SMAPI, the Stardew Valley modding API.

- **`ModRegistryHelper`** (module `ModHelpers`, `mod_registry_helper.dfy`) is the
  facade one mod uses to reach other mods. `IsLoaded` asks whether the registry
  resolves an id. `GetApi` returns a mod's raw API. It checks that every mod has
  finished initialising and finds the target mod. It then takes the target's
  global `Api`, or otherwise invokes the target's per-consumer `GetApi` entry
  point. That entry point may throw, or may return a non-public object; both
  count as no API. The facade caches the result under the target's canonical
  id, absence included, and logs what happened. `GetApi<TInterface>` validates
  the requested type, then returns the raw API directly or through a generated
  proxy. The helper is a class whose `accessedModApis` map and monitor log
  change in place. Each call is proved against the pure function `GetApiCall`.
  The calls of one consumer fold into `Run`, and the memoisation lemmas are
  stated over `Run`.
- **`I18nUtilities`** (module `I18n`, `i18n_utilities.dfy`) holds the static
  translation tables and the current locale. `Get` and `GetDefault` look a key
  up and pass the text to `ReplaceTokens`. `ReplaceTokens` first builds a
  case-insensitive token lookup, with loops. From a dictionary it uses the
  trimmed keys; from any other object it uses the public properties, then the
  public fields. It then rewrites every `{{name}}` match of the regular
  expression `{{([ \w\.\-]+)}}` in one left-to-right scan. The lookup building
  is imperative: `BuildLookup` and `AddMembers` are methods with loops, proved
  against the functions `EntriesLookup` and `MembersLookup`. The scan is the
  recursive function `Substitute`.

Modelling choices:

- **Absence and exceptions.** A nullable reference is an `Option` (`wrappers.dfy`).
  An exception a caller sees is the `Failure` of a `Result`.
- **Case-insensitive lookup.** `StringComparer.OrdinalIgnoreCase` is modelled by
  storing every key in folded form (`FoldKey`).
- **Registry state.** The shared mod registry is mutable, and it belongs to
  other code. Its state at the moment of a call is therefore a parameter of
  that call (`Registry`).
- **Entry points.** A mod's `GetApi` entry point and the proxy factory are
  functions supplied from outside.

Two behaviours of the code are worth stating outright:

- **Not-ready log level.** The message logged when `GetApi` is called before
  all mods are initialised is logged at `Error` (ModRegistryHelper.cs line 67).
- **Proxy factory exceptions.** Exceptions from `CreateProxy` (line 135) are
  not caught, so they reach the caller. `GetApiAs` returns them as `Failure`.

## Model

| member | source | states |
|---|---|---|
| ModHelpers.Resolve | src/SMAPI/Framework/ModHelpers/ModRegistryHelper.cs:79-100 | The first resolution of a raw API. A global `Api` wins, and no provider is invoked. Otherwise the provider is invoked exactly when the mod has one. A thrown exception gives null plus an Error entry carrying the log summary and display name. A non-public returned object gives null plus a Warn entry. Any other result is passed through unchanged. An API that did not come from the global `Api` always has a public type. |
| ModHelpers.GetApiCall | src/SMAPI/Framework/ModHelpers/ModRegistryHelper.cs:62-109 | Not ready: null, one Error entry, cache unchanged. Unknown id: null and nothing else. A non-null result implies ready and loaded. Otherwise the result is the cache entry under the canonical id. The cache gains exactly that key and keeps every old entry. A cached id writes no log and invokes no provider. An uncached id yields `Resolve`'s API. Its log is `Resolve`'s entries, followed by the access-mod-api entry (display name and API type name) when the API is non-null. That id's provider is invoked exactly when `Resolve` invokes it, and never for a cached id. At most one log entry is written. |
| ModHelpers.RunKeepsEntries | src/SMAPI/Framework/ModHelpers/ModRegistryHelper.cs:77-106 | Over any sequence of calls, an entry already in the cache is never changed or removed; the first observation wins. |
| ModHelpers.ProviderInvokedAtMostOnce | src/SMAPI/Framework/ModHelpers/ModRegistryHelper.cs:77-103 | Over any sequence of calls, each canonical id's provider is invoked at most once. A provider is never invoked for an id cached at the start. Every invoked id ends up cached. |
| ModHelpers.RepeatedCallIsMemoised | src/SMAPI/Framework/ModHelpers/ModRegistryHelper.cs:72-108 | A later call for any id that maps to an already-resolved canonical id returns the first result, null included. It writes nothing and invokes nothing. This holds whatever calls, registry changes or provider changes happened in between. |
| ModHelpers.ModRegistryHelper.constructor | src/SMAPI/Framework/ModHelpers/ModRegistryHelper.cs:21-41 | A new helper has an empty cache and an empty log, and keeps its owner's id and proxy factory. |
| ModHelpers.ModRegistryHelper.IsLoaded | src/SMAPI/Framework/ModHelpers/ModRegistryHelper.cs:56-59 | True exactly when the registry resolves the id. When it is false, `GetApi` for that id returns null. |
| ModHelpers.ModRegistryHelper.GetApi | src/SMAPI/Framework/ModHelpers/ModRegistryHelper.cs:62-109 | Returns `GetApiCall`'s result. Sets the cache to its cache, appends its log entries and records its provider invocations. Keeps the invariant that no provider has been invoked twice and that every invoked id is cached. |
| ModHelpers.ModRegistryHelper.GetApiAs | src/SMAPI/Framework/ModHelpers/ModRegistryHelper.cs:112-136 | The raw call happens first. A null raw API gives null with no mapping log. A class type gives null and an Error entry naming the class. A non-public interface gives null and an Error entry naming the interface. An API that already implements the interface is returned as it is; a same-named interface from another assembly is a different type and goes through the proxy. Otherwise the proxy factory's proxy is returned, or its exception propagates. |
| I18n.TrimStart | src/SMAPI.Toolkit/Utilities/I18nUtilities.cs:118 | The result is never longer than the input. |
| I18n.TrimEnd | src/SMAPI.Toolkit/Utilities/I18nUtilities.cs:118 | The result is never longer than the input. |
| I18n.Trim | src/SMAPI.Toolkit/Utilities/I18nUtilities.cs:118 | The trimmed string is never longer than the input and has white space at neither end. |
| I18n.TrimStartDropsLeadingSpace | src/SMAPI.Toolkit/Utilities/I18nUtilities.cs:118 | Trimming the start leaves a suffix of the input. Everything removed is white space, and the suffix does not begin with white space. |
| I18n.TrimEndDropsTrailingSpace | src/SMAPI.Toolkit/Utilities/I18nUtilities.cs:118 | Trimming the end leaves a prefix of the input. Everything removed is white space, and the prefix does not end with white space. |
| I18n.TrimIsInnerSlice | src/SMAPI.Toolkit/Utilities/I18nUtilities.cs:118 | `Trim` returns the contiguous slice that starts right after the leading white space and has white space at neither end. |
| I18n.TrimDropsOnlySpace | src/SMAPI.Toolkit/Utilities/I18nUtilities.cs:138 | Everything `Trim` drops before and after that slice is white space. |
| I18n.FoldKeyIsIgnoreCase | src/SMAPI.Toolkit/Utilities/I18nUtilities.cs:111 | Two keys have the same folded form exactly when `OrdinalIgnoreCase` calls them equal: same length, and equal characters once both are upper-cased. So keying the lookup by `FoldKey` is the case-insensitive dictionary. |
| I18n.EntriesLookupKeys | src/SMAPI.Toolkit/Utilities/I18nUtilities.cs:114-122 | A key is in the dictionary lookup exactly when some entry with a non-null key trims and folds to it (both directions). |
| I18n.LastEntryWins | src/SMAPI.Toolkit/Utilities/I18nUtilities.cs:116-121 | Among entries whose trimmed keys are equal ignoring case, the last one in enumeration order supplies the stored value (null included). |
| I18n.MembersLookupKeepsOthers | src/SMAPI.Toolkit/Utilities/I18nUtilities.cs:128-131 | Storing members leaves alone every key that no member's name folds to: it stays present or absent, with the same value. |
| I18n.LastMemberWins | src/SMAPI.Toolkit/Utilities/I18nUtilities.cs:128-131 | Among members whose names are equal ignoring case, the last one supplies the stored value. |
| I18n.FieldOverridesProperty | src/SMAPI.Toolkit/Utilities/I18nUtilities.cs:127-131 | Fields are stored after properties, so a field overrides a property with the same name ignoring case. |
| I18n.PropertyKeptUnlessField | src/SMAPI.Toolkit/Utilities/I18nUtilities.cs:127-131 | A property whose name no field shares (ignoring case) keeps its value in the lookup. |
| I18n.BuildLookup | src/SMAPI.Toolkit/Utilities/I18nUtilities.cs:111-133 | The loops build exactly `LookupOf(tokens)`. For a dictionary that is each entry in order, under its trimmed key, skipping null keys. Otherwise it is each property and then each field, under its name. |
| I18n.AddMembers | src/SMAPI.Toolkit/Utilities/I18nUtilities.cs:128-131 | One reflection loop yields exactly `MembersLookup(init, members)`. |
| I18n.NameLength | src/SMAPI.Toolkit/Utilities/I18nUtilities.cs:136 | The length of the greedy `[ \w\.\-]+` run: every character in the run is a name character, and the next one is not. |
| I18n.TokenAt | src/SMAPI.Toolkit/Utilities/I18nUtilities.cs:136 | Matching at one position: a `Some` result is a match of `{{name}}` with a non-empty name. `None` means no match of any length starts there. |
| I18n.TokenIsUnique | src/SMAPI.Toolkit/Utilities/I18nUtilities.cs:136 | A match at a position has only one possible length. |
| I18n.SubstituteToken | src/SMAPI.Toolkit/Utilities/I18nUtilities.cs:136-142 | The scan `Substitute` with the match evaluator, on a text that starts with a token. A token whose trimmed name is known is replaced by its value, or by `""` when that value is null. An unknown token stays verbatim. The rest of the text is then scanned; the inserted value is not rescanned. |
| I18n.SubstituteCopiesPlainChar | src/SMAPI.Toolkit/Utilities/I18nUtilities.cs:136 | No match starts at a character other than `{`. The scan `Substitute` copies that character and moves on by one. |
| I18n.SubstitutePlainPrefix | src/SMAPI.Toolkit/Utilities/I18nUtilities.cs:136 | Text without `{` passes through `Substitute` unchanged, and the scan continues after it. |
| I18n.SubstituteUnknownTokens | src/SMAPI.Toolkit/Utilities/I18nUtilities.cs:136-142 | A text where no token's trimmed, folded name is in the lookup comes out unchanged. |
| I18n.SubstituteEmptyLookup | src/SMAPI.Toolkit/Utilities/I18nUtilities.cs:136-142 | With an empty lookup, every text comes out unchanged. |
| I18n.EmptyNameIsNotAToken | src/SMAPI.Toolkit/Utilities/I18nUtilities.cs:136 | `{{}}` is left as it is. |
| I18n.SlashNameIsNotAToken | src/SMAPI.Toolkit/Utilities/I18nUtilities.cs:136 | `{{a/b}}` is left as it is, because `/` is not a name character. |
| I18n.ReplaceTokens | src/SMAPI.Toolkit/Utilities/I18nUtilities.cs:105-143 | A null or blank text, or null tokens, return the text itself. Otherwise the result is the scan of the text over the lookup built from the tokens. |
| I18n.ReplacedTextUnchanged | src/SMAPI.Toolkit/Utilities/I18nUtilities.cs:107-108 | A null, blank or token-less text comes back unchanged, and so does any text given an empty dictionary or an object without public properties or fields. |
| I18n.DictionaryTokenReplaced | src/SMAPI.Toolkit/Utilities/I18nUtilities.cs:114-142 | A token matching a dictionary key, compared after trimming and ignoring case, is replaced by the last such entry's value, or by `""` for null. |
| I18n.I18nUtilities.constructor | src/SMAPI.Toolkit/Utilities/I18nUtilities.cs:36-39 | Initially there are no translation tables and the locale is `default`. |
| I18n.I18nUtilities.Get | src/SMAPI.Toolkit/Utilities/I18nUtilities.cs:80-88 | An unloaded current locale fails with the method's own exception. A missing key fails with the indexer's exception. Otherwise the result is the token-replaced translation. |
| I18n.I18nUtilities.GetDefault | src/SMAPI.Toolkit/Utilities/I18nUtilities.cs:93-101 | The same as `Get`, for the `default` locale. |

## Left out

- `I18nUtilities.Init` reads JSON files from disk and the installed UI culture. This is file I/O and the environment. Its outcome is instead given to the `Loaded` constructor as tables and a locale.
- The `locale == null` guard of `Get` is not modelled. `locale` is only ever assigned non-null strings, so it is a `string` here.
- Reflection (`GetProperties`, `GetFields`, `GetValue`) and `ToString()` are not modelled; the member names and stringified values are inputs (`Member`, `Entry`). Enumeration order is the order of those sequences.
- `IsWordChar`: `\w` is modelled over ASCII letters, digits and `_`. .NET's `\w` also matches Unicode letters (L), decimal digits (Nd), nonspacing marks (Mn) and connector punctuation (Pc) outside ASCII.
- `FoldKey`: ignoring case is modelled as ASCII upper-casing; .NET also folds other scripts.
- `ModRegistryHelper.GetAll` and `Get` are not modelled. They pass straight through to the registry, which is not part of this model.
- The internals of the interface proxy factory are not part of this model. It is a function that returns a proxy or an exception.
- `ModHelpers.ModRegistryHelper.GetApiAs`: the proxy factory is a pure function, so the same arguments yield the same proxy object. The real factory wraps a new instance on each call, so object identity of proxies is not modelled. No property proved here depends on it.
- Logging (`SGameLogger`, translation of log keys) is not modelled. Each message is recorded as a `LogEntry` of key, arguments and level. The success entry at ModRegistryHelper.cs line 105 names no level. It is recorded at `Trace`, the default level of SMAPI's `IMonitor.Log`. The `LogTra` extension method itself is not part of this model.
- Concurrency is not modelled. Calls on one helper are sequential.
- The .NET type system is reduced to a type's assembly, full name, visibility and whether it is an interface. `is` is a membership test on the set of types the object is an instance of.

# XanBotCore core in Dafny

This project models the core of XanBotCore, a framework for Discord bots written in C#. The model covers:

- **Commands** (`Command.dfy`, module `Commands`). A command's required permission level and the stock permission gate `CanUseCommand`. It also covers `CompareTo`, the order in which commands are sorted: by required level, then by name.
- **Permission registry** (`PermissionRegistry.dfy`, module `Permissions`). This covers:
  - the level constants;
  - the per-context cache of user levels;
  - the string-keyed configuration store that persists them;
  - reading a user's level with the default and the malformed-data error;
  - updating a member's level;
  - saving one context or every context;
  - the one-time `AllowXanMaxPermissionLevel` switch.

  The static state of the C# class becomes the fields of a `PermissionRegistry` object. The configuration files become a map from context to key/value map.
- **The `help` command** (`CommandHelp.dfy`, module `Help`). It builds the command listing with usage markers and padding, the optional section of context-specific commands, and the detail view of one command. It raises exceptions for unknown names and for the wrong number of arguments. `ExecuteCommand` is the imperative loop of the source, proved equal to the specification function `HelpResponse`.
- **24-bit console colours** (`ConsoleColorVT.dfy`, module `ConsoleColors`). This covers:
  - the table of the sixteen stock colours;
  - parsing of `^#RRGGBB;` codes;
  - the VT (SGR) escape sequences;
  - equality and the `==`/`!=` operators;
  - the nearest-stock-colour search, which fills a per-object cache.
- **`NonSingularResultException`** (`NonSingularResultException.dfy`, module `Exceptions`). The constructor's loop fills the `ToString()` array.

`Decimal.dfy`, `Strings.dfy` and `Wrappers.dfy` hold the .NET pieces the core relies on:

- the `byte`/`ulong` ranges;
- `ToString()` of integers and `byte.TryParse`;
- `ToLower`, `string.CompareTo`, counting a character;
- `Option`/`Result` types, which stand for null and for thrown exceptions.

Two places where the code does something other than its documentation suggests. The model follows the code in both cases:

- `SaveContextPermissionsToFile` writes every cached id, including ids at the default level. The doc comment of `DefaultPermissionLevel` says such members are not stored.
- The `AllowXanMaxPermissionLevel` setter ignores the value assigned. Before initialisation it always sets the switch to `false`.

## Model

| member | source | states |
|---|---|---|
| Commands.CanUseCommand | XanBotCore/CommandSystem/Command.cs:42-46 | access is granted exactly when the byte comparison of the member's level with the required level is not negative; a denial needs a non-zero requirement and a member below 255 |
| Commands.CanUseCommandMonotone | XanBotCore/CommandSystem/Command.cs:42-46 | raising a member's level never takes away access to a command |
| Commands.CanUseCommandExtremes | XanBotCore/CommandSystem/Command.cs:45 | level 255 can use every command, and a level-0 command is usable by everyone |
| Commands.ByteCompareTo | XanBotCore/CommandSystem/Command.cs:60 | the byte comparison is negative, zero or positive as the first byte is smaller, equal or larger, and lies within -255..255 |
| Commands.CompareTo | XanBotCore/CommandSystem/Command.cs:58-63 | a null other gives 1; otherwise different levels decide the sign by level order |
| Commands.CompareToNull | XanBotCore/CommandSystem/Command.cs:59 | every command sorts after null (`CompareTo(null) == 1`) |
| Commands.CompareToByLevelThenName | XanBotCore/CommandSystem/Command.cs:58-63 | a lower required level sorts first whatever the names; equal levels compare by name |
| Commands.CompareToZero | XanBotCore/CommandSystem/Command.cs:58-63 | two commands compare equal exactly when level and name agree; a command equals itself |
| Commands.CompareToAntisymmetric | XanBotCore/CommandSystem/Command.cs:58-63 | swapping the operands negates the comparison |
| Commands.CompareToTransitive | XanBotCore/CommandSystem/Command.cs:58-63 | "sorts no later than" is transitive |
| Commands.SortsNoLaterThanTotalPreorder | XanBotCore/CommandSystem/Command.cs:58-63 | the order is reflexive, total and transitive, so a sort by `CompareTo` is well defined |
| Commands.SortedExample | XanBotCore/CommandSystem/Command.cs:58-63 | b(2), c(2), a(63) is sorted; b, a, c and a, b, c are not |
| Decimal.NatToString | XanBotCore/Permissions/PermissionRegistry.cs:133 | the decimal text of a number is a non-empty run of digits that starts with '0' only for zero |
| Decimal.ParseByte | XanBotCore/Permissions/PermissionRegistry.cs:102 | empty or non-digit text is rejected; every digit text of value at most 255 is accepted, leading zeros included; an accepted text has the parsed value, and without a redundant leading zero it is that value's decimal text |
| Decimal.ParseByteOfString | XanBotCore/Permissions/PermissionRegistry.cs:101-102 | `byte.TryParse` of a byte's `ToString()` gives that byte back |
| Decimal.ParseByteCanonical | XanBotCore/Permissions/PermissionRegistry.cs:102 | a parsed text prints back to itself exactly when it has no redundant leading zero |
| Decimal.NatToStringInjective | XanBotCore/Permissions/PermissionRegistry.cs:133 | different ids have different decimal keys |
| Permissions.IdKeysInjective | XanBotCore/Permissions/PermissionRegistry.cs:133 | each store key written for an id reads back as that id |
| Permissions.ReadLevel | XanBotCore/Permissions/PermissionRegistry.cs:99-106 | a missing entry gives the default level; the read fails exactly when the stored text is not a byte; otherwise the result is the stored decimal value |
| Permissions.ParseByteRejects | XanBotCore/Permissions/PermissionRegistry.cs:102-105 | "256", "abc" and "" are not bytes, so reading them raises the malformed-data exception |
| Permissions.WithLevel | XanBotCore/Permissions/PermissionRegistry.cs:114-117 | the cache after an update: the context map is created if missing, the entry holds the level, every other entry and context is unchanged |
| Permissions.SaveContext | XanBotCore/Permissions/PermissionRegistry.cs:129-136 | saving adds the context's file exactly when the context has a cache map, and no other context's file changes |
| Permissions.SaveContextEffect | XanBotCore/Permissions/PermissionRegistry.cs:129-136 | saving a context without a cache map changes nothing. Otherwise every cached id is written as its level's decimal text, other keys of the file are kept, the file gains no key besides the written ids, and other contexts are untouched |
| Permissions.SaveContextIdempotent | XanBotCore/Permissions/PermissionRegistry.cs:129-136 | saving a context twice gives the same store as saving it once |
| Permissions.SavedLevelRoundTrip | XanBotCore/Permissions/PermissionRegistry.cs:113-121 | after setting a level and saving, reading the user's level gives that level |
| Permissions.SaveAllWithFlushed | XanBotCore/Permissions/PermissionRegistry.cs:123-127 | saving a list of contexts in turn depends only on the set of contexts listed |
| Permissions.SaveAll | XanBotCore/Permissions/PermissionRegistry.cs:123-127 | saving all contexts adds exactly the listed contexts that have a cache map, and leaves every other context's file as it was |
| Permissions.SaveAllIdempotent | XanBotCore/Permissions/PermissionRegistry.cs:123-127 | saving all contexts twice gives the same store as saving them once |
| Permissions.PermissionRegistry.constructor | XanBotCore/Permissions/PermissionRegistry.cs:19-22 | the cache starts empty, the switch starts on, and the default level starts at 2 (line 91) |
| Permissions.PermissionRegistry.AllowXanMaxPermissionLevel | XanBotCore/Permissions/PermissionRegistry.cs:30-32 | the getter returns the current value of the switch |
| Permissions.PermissionRegistry.SetAllowXanMaxPermissionLevel | XanBotCore/Permissions/PermissionRegistry.cs:33-36 | after initialisation it raises `InvalidOperationException` and changes nothing; before, it turns the switch off |
| Permissions.PermissionRegistry.GetPermissionLevelOfUser | XanBotCore/Permissions/PermissionRegistry.cs:99-106 | reads the store, not the cache: a missing entry gives the default level, a failure needs a stored entry, and a success is the stored decimal value |
| Permissions.PermissionRegistry.UpdatePermissionLevelOfMember | XanBotCore/Permissions/PermissionRegistry.cs:113-121 | the cache holds the new level. Saving writes the member's context, after which the store reads back the new level. Without saving the store is unchanged |
| Permissions.PermissionRegistry.SaveAllUserPermissionsToFile | XanBotCore/Permissions/PermissionRegistry.cs:123-127 | the store equals saving each given context in turn |
| Permissions.PermissionRegistry.SaveContextPermissionsToFile | XanBotCore/Permissions/PermissionRegistry.cs:129-136 | the store equals the context's file merged with the entries of every cached id |
| Help.Syntax | XanBotCore/CommandSystem/Commands/CommandHelp.cs:22-26 | the syntax is "help [commandName]" |
| Help.HelpCommand | XanBotCore/CommandSystem/Commands/CommandHelp.cs:15-28 | the command is named "help" with that syntax and required level 2 |
| Help.ExecuteCommand | XanBotCore/CommandSystem/Commands/CommandHelp.cs:30-96 | the reply or exception equals `HelpResponse`: listing, detail view, "does not exist" or invalid argument count |
| Help.HelpResponse | XanBotCore/CommandSystem/Commands/CommandHelp.cs:30-96 | no argument always succeeds; one argument fails exactly when no global command matches and otherwise gives that command's details; every exception names the help command and needs an argument |
| Help.Listing | XanBotCore/CommandSystem/Commands/CommandHelp.cs:31-68 | the listing starts with the fixed introduction and ends with the closing code fence |
| Help.Details | XanBotCore/CommandSystem/Commands/CommandHelp.cs:82-86 | the detail view starts with the bold "Command:" header and the name in backticks, and ends with the usage segment |
| Help.AppendCommandLines | XanBotCore/CommandSystem/Commands/CommandHelp.cs:35-48 | the loop appends the listing line of every command in list order |
| Help.AppendCommandLine | XanBotCore/CommandSystem/Commands/CommandHelp.cs:36-47 | one iteration appends the marker, the name, the padding and the requirement text |
| Help.FindCommandFrom | XanBotCore/CommandSystem/Commands/CommandHelp.cs:74-75 | the lookup returns the first command whose case-folded name matches, and none only when no command matches |
| Help.PaddedNameWidth | XanBotCore/CommandSystem/Commands/CommandHelp.cs:36-45 | prefix, name and padding take exactly 34 characters for names of at most 32 characters (33 with the context section's "+"); longer names get no padding |
| Help.UsagePrefixChoice | XanBotCore/CommandSystem/Commands/CommandHelp.cs:37-40 | the global marker is "+ " for no member or a member who may use the command and "- " otherwise; the context section's default is "+" (line 54) |
| Help.CommandLinesAppend | XanBotCore/CommandSystem/Commands/CommandHelp.cs:35-48 | the lines of two lists are the lines of each, in order |
| Help.CommandLinesAt | XanBotCore/CommandSystem/Commands/CommandHelp.cs:35-48 | command i's line sits between the lines of the commands before and after it, and ends with its requirement text |
| Help.CommandLineHasOneNewline | XanBotCore/CommandSystem/Commands/CommandHelp.cs:41-47 | each listing line holds exactly one line break |
| Help.CommandLinesLineCount | XanBotCore/CommandSystem/Commands/CommandHelp.cs:35-48 | the listing of n commands with single-line names has n lines |
| Help.ListingShape | XanBotCore/CommandSystem/Commands/CommandHelp.cs:32-68 | the listing starts with the fixed introduction and ends with the code fence; the context section appears exactly when there are context-specific commands |
| Help.FindCommandFromCaseInsensitive | XanBotCore/CommandSystem/Commands/CommandHelp.cs:75 | names that fold to the same lower case find the same command |
| Help.DetailsLookup | XanBotCore/CommandSystem/Commands/CommandHelp.cs:72-91 | the one-argument reply depends only on the global list and the folded name; it fails exactly when no global command matches |
| Help.UsageBackticksBalanced | XanBotCore/CommandSystem/Commands/CommandHelp.cs:76-86 | the usage segment holds an even number of backticks; the closing one is omitted exactly when the syntax holds an odd number |
| Help.HelpErrors | XanBotCore/CommandSystem/Commands/CommandHelp.cs:91-95 | two or more arguments raise the argument-count exception; an unknown name raises "Command `X` does not exist." |
| ConsoleColors.FromConsoleColor | XanBotCore/Logging/ConsoleColorVT.cs:74-76 | the value is the one the table lists for that stock colour |
| ConsoleColors.AsConsoleColor | XanBotCore/Logging/ConsoleColorVT.cs:120-123 | a found colour is listed with this value in the table; none is found only when no entry has this value |
| ConsoleColors.TableIndex | XanBotCore/Logging/ConsoleColorVT.cs:18-35 | every stock colour is a key of the table |
| ConsoleColors.ColorsDistinct | XanBotCore/Logging/ConsoleColorVT.cs:19-34 | the sixteen entries have pairwise distinct keys and colour values |
| ConsoleColors.FindValueFrom | XanBotCore/Logging/ConsoleColorVT.cs:121 | the key lookup returns the first entry holding the value, and none only when no entry holds it |
| ConsoleColors.AsConsoleColorOfStock | XanBotCore/Logging/ConsoleColorVT.cs:120-123 | `AsConsoleColor(FromConsoleColor(c)) == c` for every stock colour |
| ConsoleColors.AsConsoleColorExact | XanBotCore/Logging/ConsoleColorVT.cs:120-123 | the result is null exactly for values of no stock colour; otherwise it is a stock colour with that value |
| ConsoleColors.RegexAtLengthNine | XanBotCore/Logging/ConsoleColorVT.cs:85 | with the length-9 check, the unanchored pattern match is a whole-string match |
| ConsoleColors.RegexIsUnanchored | XanBotCore/Logging/ConsoleColorVT.cs:14 | without the length check, the pattern also matches a code inside other text |
| ConsoleColors.SixHexDigits | XanBotCore/Logging/ConsoleColorVT.cs:92 | six hex digits denote the three bytes of their digit pairs |
| ConsoleColors.ByteLanes | XanBotCore/Logging/ConsoleColorVT.cs:93-95 | the masks and shifts extract the three bytes of a 24-bit value |
| ConsoleColors.FromFormattedString | XanBotCore/Logging/ConsoleColorVT.cs:84-98 | it succeeds exactly on "^#", six hex digits and ";" (length 9); R, G and B are the hex pairs at positions 2-3, 4-5 and 6-7; otherwise it raises `ArgumentException` |
| ConsoleColors.FromFormattedStringIgnoresCase | XanBotCore/Logging/ConsoleColorVT.cs:84-98 | lower-casing the text does not change the result |
| ConsoleColors.FormatColorCodeRoundTrip | XanBotCore/Logging/ConsoleColorVT.cs:79-98 | parsing the code written for a colour gives that colour |
| ConsoleColors.ToStringVT | XanBotCore/Logging/ConsoleColorVT.cs:202-207 | the sequence starts with ESC, ends with "m" and is 13 to 19 characters long |
| ConsoleColors.ToStringVTShape | XanBotCore/Logging/ConsoleColorVT.cs:202-207 | the sequence is ESC "[48;2;" (background) or ESC "[38;2;" (foreground) and ends with "m" |
| ConsoleColors.ToStringVTInjective | XanBotCore/Logging/ConsoleColorVT.cs:202-207 | the sequence determines the colour and the plane |
| ConsoleColors.SquaredDistance | XanBotCore/Logging/ConsoleColorVT.cs:241-247 | the squared distance of two colours, which orders pairs as the Euclidean distance does, lies below the search's start value and is zero exactly for equal colours |
| ConsoleColors.SquaredDistanceBounds | XanBotCore/Logging/ConsoleColorVT.cs:241-247 | every distance is below the search's start value and is zero exactly for equal colours |
| ConsoleColors.ClosestIndex | XanBotCore/Logging/ConsoleColorVT.cs:134-142 | the search settles on an entry of least distance, the earliest among ties |
| ConsoleColors.NearestConsoleColor | XanBotCore/Logging/ConsoleColorVT.cs:129-145 | the colour found is at least distance from the value among all sixteen entries |
| ConsoleColors.NearestIsClosest | XanBotCore/Logging/ConsoleColorVT.cs:129-145 | the result is always the earliest entry at least distance; for a stock value it is that colour |
| ConsoleColors.NearestOfStock | XanBotCore/Logging/ConsoleColorVT.cs:130-131 | every stock colour is its own nearest colour |
| ConsoleColors.LegacyFormat | XanBotCore/Logging/ConsoleColorVT.cs:187-196 | without the exact requirement it always succeeds; a success starts with "§"; a failure is the `NotSupportedException` with its message |
| ConsoleColors.LegacyFormatOutcome | XanBotCore/Logging/ConsoleColorVT.cs:187-196 | the legacy format fails exactly when an exact colour is required and there is none; otherwise it names the nearest colour |
| ConsoleColors.FormatCode | XanBotCore/Logging/ConsoleColorVT.cs:174-176 | the code starts with ESC exactly in VT mode; otherwise it is the successful legacy format without the exact requirement |
| ConsoleColors.FormatCodeBackground | XanBotCore/Logging/ConsoleColorVT.cs:174-176 | without VT the code is the same for both planes; with VT the planes differ |
| ConsoleColors.ConsoleColorVT.constructor | XanBotCore/Logging/ConsoleColorVT.cs:64-68 | the components are stored and the cache starts empty |
| ConsoleColors.ConsoleColorVT.Equals | XanBotCore/Logging/ConsoleColorVT.cs:229-235 | equality implies the other object is a colour with the same R, G and B; every colour equals itself |
| ConsoleColors.ConsoleColorVT.GetNearestConsoleColor | XanBotCore/Logging/ConsoleColorVT.cs:129-145 | returns the nearest colour. A search stores its result in the cache, an exact match leaves the cache alone, and the cache always agrees with a fresh search |
| ConsoleColors.ConsoleColorVT.ToStringNonVT | XanBotCore/Logging/ConsoleColorVT.cs:187-196 | the result is the legacy format of the colour. The cache is unchanged for a stock value or when an exact colour is required, and otherwise holds the nearest colour |
| ConsoleColors.ConsoleColorVT.ToString | XanBotCore/Logging/ConsoleColorVT.cs:174-176 | the VT sequence for the plane, or the legacy code of the nearest colour. The cache is unchanged in VT mode and for a stock value, and otherwise holds the nearest colour |
| ConsoleColors.OpEquals | XanBotCore/Logging/ConsoleColorVT.cs:217-221 | two nulls are equal, null and an object are not, and two objects are equal exactly when R, G and B agree |
| ConsoleColors.OpNotEquals | XanBotCore/Logging/ConsoleColorVT.cs:223-227 | `!=` holds exactly when one operand is null and the other is not, or both are objects whose R, G or B differ |
| ConsoleColors.OpNotEqualsNegates | XanBotCore/Logging/ConsoleColorVT.cs:223-227 | `!=` is always the negation of `==` |
| ConsoleColors.OpEqualsEquivalence | XanBotCore/Logging/ConsoleColorVT.cs:217-235 | `==` is reflexive, symmetric and transitive |
| ConsoleColors.EqualsRejectsOthers | XanBotCore/Logging/ConsoleColorVT.cs:229-235 | `Equals` is false for null and for non-colours, and componentwise for colours |
| Exceptions.FirstNullFrom | XanBotCore/Exceptions/NonSingularResultException.cs:34-36 | finds the first null candidate, and none only when every candidate is present |
| Exceptions.NonSingularResultException.constructor | XanBotCore/Exceptions/NonSingularResultException.cs:30-38 | the message, the candidates and the string array are stored as passed |
| Exceptions.Create | XanBotCore/Exceptions/NonSingularResultException.cs:29-39 | fails with a null reference at the first null candidate. Otherwise it stores message and candidates as passed, plus a fresh array of the same length whose element idx is `ToString()` of candidate idx |
| Exceptions.CreateEmpty | XanBotCore/Exceptions/NonSingularResultException.cs:33-38 | no candidates give an empty string array |

## Left out

- The configuration files themselves are not modelled: `XConfiguration.GetConfigurationUtility`, reloading, `SaveConfigurationFile`, and the third argument of `SetConfigurationValue`. The store is an in-memory map from context to key/value map, and a read with `reloadConfigFile` is a plain lookup.
- `XanBotCoreSystem.Created`, `BotContextRegistry.AllContexts`, `CommandMarshaller.Commands` and the context's `ContextSpecificCommands` are fields or parameters. So are `XanBotLogger.IsVTEnabled` and the legacy colour key map of `XanBotLogger`, and candidates' `ToString()` overrides. Their code is not part of this model.
- The reply is returned instead of being sent: `ResponseUtil.RespondTo` and the DSharpPlus `DiscordMessage` are left out. The help command's `originalMessage` parameter, used only to send the reply, and its `allArgs` parameter are left out. Its `context` parameter is replaced by that context's `ContextSpecificCommands` list.
- `ApplyToForeground`, `ApplyToBackground`, the parameterless `ToString()` and `ToStringBG` are left out: they are console output and global reads. So are the implicit and explicit conversion operators, which are one call each, and `GetHashCode`.
- The text of the help command's `Description` is a parameter of `Help.HelpCommand`.
- The abstract `ExecuteCommand` handlers of other commands, the argument tokenizer and the dispatcher: their source is not part of this model.
- Concurrent access to the static dictionaries is not modelled.
- `CanUseCommand` with a null member, which throws in C#, is not modelled: the model's members are never null.
- `CanUseCommand` is `virtual`, and its comment expects commands that override it. The model has only the stock gate, and the help listing uses that gate for every command, so overriding gates are not captured.
- `cmd.Name.Length` counts UTF-16 code units, and `|cmd.name|` counts Unicode scalar values. For a name with characters outside the Basic Multilingual Plane, the listing's padding in the model is therefore wider than in C#.
- The nearest-colour search's tie-break assumes that `Colors.Values` enumerates the table in declaration order. .NET does not promise this order for a `Dictionary`.
- `FromFormattedString` with a null `formatted` throws `NullReferenceException` in C#. The model has no null string, so this case is not modelled.
- Commands.CompareToByLevelThenName: names compare by ordinal code points, not by the culture-sensitive `string.CompareTo`.
- Help.FindCommandFrom: `ToLower` folds only ASCII letters, not the culture-sensitive mapping of .NET.
- Permissions.ReadLevel: `byte.TryParse` is modelled for plain decimal digits only; surrounding whitespace and a sign are not accepted.
- ConsoleColors.ConsoleColorVT.GetNearestConsoleColor: it compares squared integer distances instead of `Math.Sqrt` of doubles, which gives the same order. A start value above every squared distance stands for `double.MaxValue`.
- ConsoleColors.FromFormattedString: `FromFormattedString` and `FromConsoleColor` return the colour value rather than a new or shared `ConsoleColorVT` object, so object identity and the table objects' caches are not modelled.
- ConsoleColors.FindValueFrom: `KeyOf` is modelled as the first key holding the value, in declaration order. Since the table's values are distinct this choice does not matter.
- Exceptions.Create: the exception's `Exception` base-class state and a null `potentialReturnValues` array are not modelled. A null element ends construction with a `NullReferenceException`, which is modelled as a `Failure` carrying the element's index.

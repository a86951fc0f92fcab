# pyuniden in Dafny

A model of the pyuniden client for Uniden scanners, with its properties proved. The client speaks the scanner's serial protocol, in which every command and every reply is a comma-separated line.

The model covers three parts of the client:

- **The codec helpers.** `zero_to_head` and `zero_to_tail` rotate the ten-slot quick-lockout vectors. `frq_to_scanner` and `frq_from_scanner` convert frequencies between the user's `"146.25"` and the scanner's `"01462500"`.
- **The record layer.** `System`, `Group`, `Site`, `Channel`, `TalkGroupID` and `TrunkFrequency` each read their record with one command and unpack a fixed number of reply fields. Their `set` command writes the same fields back without the structural links. The containers follow their children's index chains from the head until an index reads as `-1`, storing every child under its index string. They also add and delete children, poll lists that end with `-1` (GLI, SLI, GLF), and pick the keys of their dump dictionaries. `Search.load` fills in the defaults of the search settings.
- **The scanner facade.** This covers how `raw` classifies a reply, the command tables of `push_key`, and the QSH and QSC command builders with their broadcast-screen test. It also covers reading the reception status, the program-mode flag, `get_scan_settings` with its walk of the system chain and its QSL pages, `set_scan_settings`, and `create_system`/`delete_system`.

How the model is built:

- **The scanner is a value.** A `Device` holds a map from command to reply for the records, plus a queue of replies for everything else. A `Link` object holds the device and a log of every command sent.
- **Errors are values.** An exception becomes an `Error` value, and a method that would raise returns `Fail`/`Failure` instead. Whatever it assigned before the exception stays assigned.
- **Objects that change are classes.** Their methods have `modifies` clauses. Each method is proved against a specification function of the old state and the device, and the lemmas state what the source promises about those functions.
- **Walks and polls have a bound.** Loops over index chains and polls take a `fuel` bound and report `Diverges` when it runs out. Every method requires that its walk does not diverge. The source has no cycle guard, and the model adds none.

Module layout: `Wire` holds comma splitting and joining, digit texts and `int()`. `Protocol` holds `raw` and the device. `Records` holds the reply layouts and set commands. `Chains` holds the index-chain walk and the `-1` poll. `Leaves`, `Groups`, `Sites` and `Systems` hold the record classes. `Searches` holds `Search`, `Scanners` holds `UnidenScanner`, and `Util` holds the codec helpers.

## Model

| member | source | states |
|---|---|---|
| Util.Insert | pyuniden/util.py:12 | `list.insert`: one element longer, `x` at `i`, the elements before `i` unchanged and the rest shifted right by one |
| Util.Pop | pyuniden/util.py:13 | `list.pop(i)`: one element shorter, the elements before `i` unchanged and the rest shifted left by one |
| Util.ZeroToHead | pyuniden/util.py:8-15 | keeps the length of its input |
| Util.HeadRotates | pyuniden/util.py:8-15 | on ten elements the last comes first and the other nine shift right by one; any other length comes back unchanged |
| Util.ZeroToTailAsWritten | pyuniden/util.py:17-24 | `zero_to_tail` as written: keeps the length |
| Util.TailAsWrittenShape | pyuniden/util.py:17-24 | as written, ten elements `v0..v9` become `v1..v8, v0, v9`: the first element goes to the next-to-last slot, not the end; other lengths come back unchanged |
| Util.TailAsWrittenSwapsLastTwo | pyuniden/util.py:8-24 | as written, `zero_to_tail(zero_to_head(v))` is `v` with its last two elements swapped, for every ten-element `v` |
| Util.TailAsWrittenBreaksRoundTrip | pyuniden/util.py:8-24 | the counterexample: "0123456789" turns into head "9012345678", and that back into "0123456798" |
| Util.HeadThenTailAsWritten | pyuniden/util.py:8-24 | read with `zero_to_head` and written back with the source's `zero_to_tail`, every vector comes back with its last two elements swapped when it has ten, and unchanged otherwise |
| Util.TailAsWrittenThenHead | pyuniden/util.py:8-24 | written with the source's `zero_to_tail` and read back with `zero_to_head`, a ten-element vector has its first and last elements swapped; other lengths come back unchanged |
| Util.TailsAgree | pyuniden/util.py:17-24 | the source's `zero_to_tail` agrees with the intended one exactly when the vector does not have ten elements or its first and last elements are equal |
| Util.ZeroToTail | pyuniden/util.py:17-24 | the intended `zero_to_tail` (see Findings): keeps the length |
| Util.TailRotates | pyuniden/util.py:17-24 | the intended `zero_to_tail` moves the first of ten elements to the end and shifts the rest left; any other length comes back unchanged |
| Util.TailUndoesHead | pyuniden/util.py:8-24 | `ZeroToTail(ZeroToHead(v)) == v` for every sequence |
| Util.HeadUndoesTail | pyuniden/util.py:8-24 | `ZeroToHead(ZeroToTail(v)) == v` for every sequence |
| Util.FrqToScanner | pyuniden/util.py:26-35 | `''` comes back as `''`; a text without exactly one '.' fails the two-way unpack, reporting how many parts it had |
| Util.FrqToScannerPads | pyuniden/util.py:30-35 | `"L.R"` becomes L left-padded with '0' to 4 followed by R right-padded to 4; longer parts are kept whole |
| Util.Fixed4Digits | pyuniden/util.py:40 | a number below 10000, zero-padded, is exactly four digits that read back as that number |
| Util.HighDigits | pyuniden/util.py:31 | a digit text of at most four digits, left-padded, is four digits with the same value |
| Util.LowDigits | pyuniden/util.py:32 | a digit text of at most four digits, right-padded, is four digits with a value below 10000 |
| Util.FrqFromScannerShape | pyuniden/util.py:37-42 | for 1–8 digits: the integer part is the number divided by 10000, followed by '.' and exactly four digits holding the number mod 10000 |
| Util.FrqFromScanner | pyuniden/util.py:37-42 | `NotANumber` exactly on the empty text, where `float()` raises; one to eight digits always give a decimal text; every other input is `FloatPath`, about which nothing is claimed, including the texts on which `float()` also raises or whose printed float fails the unpack |
| Util.FrqFromDigits | pyuniden/util.py:37-42 | a digit text whose number is `q * 10000 + m` reads as `str(q) + "." + m` zero-padded to four |
| Util.FrqFromEightDigits | pyuniden/util.py:37-42 | eight digits `hi + lo` read as `str(int(hi)) + "." + lo` |
| Util.FrqRoundTrip | pyuniden/util.py:26-42 | for digit texts L and R of at most four digits, `frq_from_scanner(frq_to_scanner("L.R"))` is `str(int(L)) + "." + R` right-padded to four |
| Wire.CountMeans | pyuniden/classes.py:92 | `s.count(c)`: zero exactly when `c` does not occur, and never more than the length |
| Wire.Split | pyuniden/classes.py:93 | `s.split(sep)` has one more piece than `s` has separators, so an n-way unpack succeeds exactly on `n - 1` separators |
| Wire.SplitPiecesPlain | pyuniden/classes.py:93 | no piece of a split holds the separator |
| Wire.SplitPlain | pyuniden/classes.py:93 | a text without the separator splits into itself alone |
| Wire.JoinSplit | pyuniden/classes.py:488-491 | `sep.join(s.split(sep)) == s` for every text |
| Wire.SplitJoin | pyuniden/classes.py:268-269 | joining one or more separator-free pieces and splitting again gives the pieces back |
| Wire.PadLeft | pyuniden/util.py:31 | `rjust`: the width or the text's own length if longer, the text at the end and fill characters before it |
| Wire.PadRight | pyuniden/util.py:32 | `ljust`: the width or the text's own length if longer, the text at the start and fill characters after it |
| Wire.ParseInt | pyuniden/other_classes.py:752 | `int()` succeeds exactly on one or more digits, optionally after a single '+' or '-' |
| Wire.IsEndMeans | pyuniden/other_classes.py:752 | the loop test `int(x) <> -1` stops exactly on '-' followed by digits whose value is 1 |
| Protocol.StatusToken | pyuniden/classes.py:92-95 | the text after the comma when the reply holds exactly one comma, the whole reply otherwise |
| Protocol.Classify | pyuniden/classes.py:92-100 | passes exactly when the status token is not in `ERR_LIST`, and then returns the reply unchanged; otherwise a `CommandError` carrying the token |
| Protocol.ErrListHasNoComma | pyuniden/classes.py:34 | no token of `ERR_LIST` holds a comma |
| Protocol.EmptyResponseFails | pyuniden/classes.py:92-100 | an empty reply always raises |
| Protocol.ManyCommasPass | pyuniden/classes.py:92-95 | a reply with two or more commas is never rejected, even when its last field is ERR |
| Protocol.OneCommaChecksSecondField | pyuniden/classes.py:92-100 | `a,b` is rejected exactly when `b` is in `ERR_LIST`, and the error names `b` |
| Protocol.NoCommaChecksWhole | pyuniden/classes.py:92-100 | a reply without a comma is rejected exactly when it is itself in `ERR_LIST` |
| Protocol.Respond | pyuniden/classes.py:88-89 | the device answers a record command from its memory, anything else with its next queued reply, and with `""` (a timeout) when the queue is empty; its memory never changes |
| Protocol.Ask | pyuniden/classes.py:83-100 | one `raw` call: the command is sent and the classified reply returned |
| Protocol.Transmit | pyuniden/classes.py:83-100 | a run of `raw` calls that stops at the first raise: the commands sent are a prefix of those given, and all of them when no call raised |
| Protocol.Link.Raw | pyuniden/classes.py:83-100 | logs the command, advances the device and returns the classified reply |
| Protocol.Link.Send | pyuniden/classes.py:83-100 | sends commands until one raises: device, log and outcome as `Transmit` gives them |
| Records.Fields | pyuniden/other_classes.py:332-336 | an n-way tuple unpack of a split: succeeds exactly when the reply has n fields, and otherwise reports the count |
| Records.Second | pyuniden/other_classes.py:599 | `(cmd, x) = res.split(',')`: succeeds exactly on two fields and yields the second, which holds no comma |
| Records.Appended | pyuniden/other_classes.py:593-604 | the index an `append_*` returns: a failed `raw` propagates its error, otherwise the two-field unpack of the reply |
| Records.Deleted | pyuniden/other_classes.py:606-612 | a `delete_*` passes exactly when `raw` passed and the key is present; an absent key is a `KeyError` |
| Records.ParseChannel | pyuniden/other_classes.py:1201-1206 | a CIN reply unpacks exactly when it has 22 fields, and otherwise reports the count; the name is field 1, the volume offset field 21 and the four links fields 11–14 |
| Records.ChannelSetMirrorsGet | pyuniden/other_classes.py:1201-1215 | the CIN set command sends `CIN`, the index, reply fields 1–10, one empty slot, then fields 16–21: the four links and field 15 are not written back |
| Records.ParseTalkGroup | pyuniden/other_classes.py:1453-1456 | a TIN reply unpacks exactly when it has 17 fields, and otherwise reports the count; the four links are fields 7–10 |
| Records.TalkGroupSetMirrorsGet | pyuniden/other_classes.py:1453-1465 | the TIN set command sends `TIN`, the index, reply fields 1–6, one empty slot in place of the links and field 11, then fields 12–16 |
| Records.ParseTrunkFrequency | pyuniden/other_classes.py:1344-1346 | a TFQ reply unpacks exactly when it has 12 fields, and otherwise reports the count; the four links are fields 4–7 |
| Records.TrunkFrequencySetMirrorsGet | pyuniden/other_classes.py:1344-1354 | the TFQ set command sends `TFQ`, the index, reply fields 1–3, an empty slot, fields 9–10 and a trailing empty slot |
| Records.ParseGroup | pyuniden/other_classes.py:745-748 | a GIN reply unpacks exactly when it has 15 fields, and otherwise reports the count; the child head is field 8 and the forward index field 6 |
| Records.GroupSetMirrorsGet | pyuniden/other_classes.py:745-770 | the GIN set command sends `GIN`, the index, reply fields 2–4 and then fields 11–14; type, links and the fields between are not written back |
| Records.ParseSite | pyuniden/other_classes.py:967-972 | a SIF reply unpacks exactly when it has 27 fields, and otherwise reports the count; the frequency head is field 14 and the forward index field 12 |
| Records.SiteSetMirrorsGet | pyuniden/other_classes.py:967-1013 | the SIF set command sends `SIF`, the index, reply fields 2–8, two empty slots, fields 17–21, an empty slot, fields 23–25 and a trailing empty slot |
| Records.ParseBandPlan | pyuniden/other_classes.py:985-992 | an MCP reply unpacks exactly when it has 25 fields, into six lower/upper/step/offset quadruples: plan `k` (0-based) holds fields `1 + 4k`, `2 + 4k`, `3 + 4k` and `4 + 4k`; the leading `0` placeholder of each source tuple is dropped, so the source's plan `k + 1` is the model's plan `k` |
| Records.ParseP25Plan | pyuniden/other_classes.py:997-1004 | an ABP reply unpacks exactly when it has 33 fields, into sixteen base/spacing pairs: base `k` is field `1 + 2k` and spacing `k` field `2 + 2k` |
| Records.ParseSystem | pyuniden/other_classes.py:332-336 | a SIN reply unpacks exactly when it has 29 fields, and otherwise reports the count; the type is field 1, the group head field 14 and the forward index field 13 |
| Records.SystemSetMirrorsGet | pyuniden/other_classes.py:332-392 | the SIN set command sends `SIN`, the index, reply fields 2–6, five empty slots, field 17, six empty slots, then fields 23–26 |
| Records.ParseTrunk | pyuniden/other_classes.py:358-363 | a TRN reply unpacks exactly when it has 30 fields, and otherwise reports the count; the talk-group group head is field 21 |
| Records.TrunkSetMirrorsGet | pyuniden/other_classes.py:358-406 | the TRN set command sends `TRN`, the index, reply fields 1–4, two empty slots, fields 7–10, ten empty slots, then fields 25–29 |
| Chains.Stored | pyuniden/other_classes.py:757 | the dictionary the walk fills holds exactly the indexes visited |
| Chains.StoredHoldsLastVisit | pyuniden/other_classes.py:757 | a child is stored under its index with the value of its last visit |
| Chains.WalkStep | pyuniden/other_classes.py:752-758 | while the index is an integer other than -1, the walk fetches that child and continues from the child's forward index |
| Chains.WalkFollowsChain | pyuniden/other_classes.py:750-763 | the walk visits the head first, then follows each child's forward index; every visited index is an integer other than -1; a walk that passes ends on an index that reads as -1; it visits at most `fuel` children |
| Chains.WalkKeyed | pyuniden/other_classes.py:750-763 | when each fetched child names the index it was fetched from, every visit does |
| Chains.StoredKeyed | pyuniden/other_classes.py:757 | storing such visits keeps every child under its own index |
| Chains.WalkFuelIrrelevant | pyuniden/other_classes.py:750-763 | for a fetch that does not take the bound, a walk that ended within it gives the same walk with any larger bound |
| Chains.WalkFuelsAgree | pyuniden/other_classes.py:338-351 | a walk that ended within its bound is the same walk with a larger bound and a fetch that does what the old one did wherever that one did not run out, as a system's group and site fetches do when they get the larger bound too |
| Chains.KeyOrder | pyuniden/other_classes.py:774 | some order of a dictionary's keys, each listed once, as `.values()` visits them |
| Chains.AskSecond | pyuniden/other_classes.py:650-651 | `raw` followed by the two-field unpack of its reply |
| Chains.RawSecond | pyuniden/other_classes.py:650-651 | sends the command and returns what `AskSecond` gives |
| Chains.Repeated | pyuniden/other_classes.py:650 | the same command `n` times |
| Chains.PollFirst | pyuniden/other_classes.py:649-652 | one poll round: a failed `raw` or unpack stops the poll; a token that is not an integer raises; -1 ends the poll; any other integer asks again |
| Chains.PollEndsOnMinusOne | pyuniden/other_classes.py:644-667 | a poll that passes sent its command once per token, its last token reads as -1, and no earlier token does |
| Chains.PollFuelIrrelevant | pyuniden/other_classes.py:644-667 | a poll that ended within its bound is the same poll with any larger bound |
| Chains.PollRound | pyuniden/other_classes.py:650-652 | one round, tied to the poll specification for each kind of token |
| Chains.PollStep | pyuniden/other_classes.py:649-652 | one loop iteration keeps the poll invariant or ends the poll where the specification ends it |
| Chains.PollLoop | pyuniden/other_classes.py:649-652 | the loop ends with device, log, outcome and tokens as the whole poll gives them |
| Chains.PollTokens | pyuniden/other_classes.py:644-655 | a whole poll: device, log, outcome and tokens as `Poll` gives them |
| Leaves.FetchChannel | pyuniden/other_classes.py:1198-1206 | sends `CIN,index`; on success the channel is the unpacked reply under its own index, and the next index is its forward link |
| Leaves.Channel.constructor | pyuniden/other_classes.py:1144-1166 | the default fields and no links |
| Leaves.Channel.GetData | pyuniden/other_classes.py:1168-1206 | on success the object becomes the fetched channel; on failure it stays as it was |
| Leaves.Channel.SetData | pyuniden/other_classes.py:1208-1216 | sends the CIN set command once and passes exactly when `raw` does |
| Leaves.FetchTalkGroup | pyuniden/other_classes.py:1450-1456 | sends `TIN,index`; on success the talk group is the unpacked reply under its own index, and the next index is its forward link |
| Leaves.TalkGroupID.constructor | pyuniden/other_classes.py:1406-1423 | the default fields and no links |
| Leaves.TalkGroupID.GetData | pyuniden/other_classes.py:1425-1456 | on success the object becomes the fetched talk group; on failure it stays as it was |
| Leaves.TalkGroupID.SetData | pyuniden/other_classes.py:1458-1465 | sends the TIN set command once and passes exactly when `raw` does |
| Leaves.FetchTrunkFrequency | pyuniden/other_classes.py:1341-1346 | sends `TFQ,index`; on success the record is the unpacked reply under its own index, and the next index is its forward link |
| Leaves.TrunkFrequency.constructor | pyuniden/other_classes.py:1308-1319 | the default fields and no links |
| Leaves.TrunkFrequency.GetData | pyuniden/other_classes.py:1321-1346 | on success the object becomes the fetched record; on failure it stays as it was |
| Leaves.TrunkFrequency.SetData | pyuniden/other_classes.py:1348-1354 | sends the TFQ set command once and passes exactly when `raw` does |
| Groups.FetchGroupParts | pyuniden/other_classes.py:742-763 | GIN, then the walk from the channel head. The children are channels when the system type handed in is CNV and talk groups otherwise; the group's own type plays no part. A failed GIN sends nothing more |
| Groups.FetchGroupPartsFuel | pyuniden/other_classes.py:742-763 | a group's `get_data` that ended within its bound does the same with any larger bound |
| Groups.FetchGroupFuel | pyuniden/other_classes.py:742-763 | the group fetch with a larger bound does what the one with the smaller does wherever that one did not run out |
| Groups.WalkChildren | pyuniden/other_classes.py:750-763 | the walk fills only the channel dictionary for a CNV system and only the talk-group one otherwise |
| Groups.ChannelLines | pyuniden/other_classes.py:774 | one CIN set command per channel, in the given order |
| Groups.TalkGroupLines | pyuniden/other_classes.py:776 | one TIN set command per talk group, in the given order |
| Groups.GroupDumpKeys | pyuniden/other_classes.py:802-824 | `channels` is dumped exactly for a group of type C and `tgids` exactly for type T; name, type and lockout always |
| Groups.Group.constructor | pyuniden/other_classes.py:698-717 | the default fields, the system type handed in, no links and no children |
| Groups.Group.AddChannel | pyuniden/other_classes.py:755-758 | fetches one channel and stores it under its index; nothing else changes |
| Groups.Group.StepChannel | pyuniden/other_classes.py:752-758 | one loop iteration keeps the walk invariant, or ends where the walk ends |
| Groups.Group.WalkChannels | pyuniden/other_classes.py:750-763 | the channel loop: every channel of the walk is stored under its index; device, log and outcome as the walk gives them |
| Groups.Group.AddTalkGroup | pyuniden/other_classes.py:760-763 | fetches one talk group and stores it under its index; nothing else changes |
| Groups.Group.StepTalkGroup | pyuniden/other_classes.py:752-763 | one loop iteration keeps the walk invariant, or ends where the walk ends |
| Groups.Group.WalkTalkGroups | pyuniden/other_classes.py:750-763 | the talk-group loop: every talk group of the walk is stored under its index |
| Groups.Group.GetChildren | pyuniden/other_classes.py:750-763 | the loop by system type: the dictionaries grow by what `WalkChildren` visits |
| Groups.Group.GetData | pyuniden/other_classes.py:719-763 | fields and links replaced once GIN unpacks, children stored as `FetchGroupParts` visits them |
| Groups.Group.SetData | pyuniden/other_classes.py:765-776 | sends GIN, then every channel and every talk group in some order of their keys, stopping at the first raise |
| Groups.Group.AppendChannel | pyuniden/other_classes.py:854-865 | sends `ACC,index`; on success stores a default channel under the returned index and changes nothing else; on failure nothing changes |
| Groups.Group.AppendTalkGroup | pyuniden/other_classes.py:867-878 | sends `ACT,index`; on success stores a default talk group under the returned index and changes nothing else; on failure nothing changes |
| Groups.Group.DeleteChannel | pyuniden/other_classes.py:880-884 | sends `DCH,key`; removes exactly that key once `raw` passes, or raises `KeyError` when it is absent |
| Groups.Group.DeleteTalkGroup | pyuniden/other_classes.py:886-890 | sends `DCH,key`; removes exactly that key from the talk groups once `raw` passes, or raises `KeyError` when it is absent |
| Sites.FetchPlans | pyuniden/other_classes.py:982-1004 | MCP, then ABP: the P25 plan is read only after the band plan, and the stage passes exactly when the P25 plan was read |
| Sites.FetchSiteParts | pyuniden/other_classes.py:964-1004 | SIF, then the frequency walk and the two plans; a failed SIF sends nothing more and stores nothing; a pass has read the record and both plans |
| Sites.FetchSitePartsFuel | pyuniden/other_classes.py:964-1004 | a site's `get_data` that ended within its bound does the same with any larger bound |
| Sites.FetchSiteFuel | pyuniden/other_classes.py:964-1004 | the site fetch with a larger bound does what the one with the smaller does wherever that one did not run out |
| Sites.FetchSiteRest | pyuniden/other_classes.py:974-1004 | the frequency walk and then the plans; it passes only with both plans read |
| Sites.TrunkFrequencyLines | pyuniden/other_classes.py:1017-1018 | one TFQ set command per trunk frequency, in the given order |
| Sites.Site.constructor | pyuniden/other_classes.py:905-931 | the default fields, no links, no frequencies and no plans |
| Sites.Site.AddTrunkFrequency | pyuniden/other_classes.py:977-980 | fetches one trunk frequency and stores it under its index |
| Sites.Site.StepTrunkFrequency | pyuniden/other_classes.py:976-980 | one loop iteration keeps the walk invariant, or ends where the walk ends |
| Sites.Site.WalkTrunkFrequencies | pyuniden/other_classes.py:974-980 | every trunk frequency of the walk is stored under its index |
| Sites.Site.GetPlans | pyuniden/other_classes.py:982-1004 | each plan is replaced once its reply unpacks |
| Sites.Site.GetRest | pyuniden/other_classes.py:974-1004 | the walk and the plans as `FetchSiteRest` gives them |
| Sites.Site.GetData | pyuniden/other_classes.py:933-1004 | fields and links replaced once SIF unpacks, then frequencies and plans as `FetchSiteParts` gives them |
| Sites.Site.SetData | pyuniden/other_classes.py:1006-1018 | sends SIF and then every trunk frequency in some order of their keys |
| Sites.Site.AppendTrunkFrequency | pyuniden/other_classes.py:1053-1064 | sends `ACC,index`; on success stores a default trunk frequency under the returned index and changes nothing else |
| Sites.Site.DeleteTrunkFrequency | pyuniden/other_classes.py:1066-1070 | sends `DCH,key`; removes exactly that key once `raw` passes, or raises `KeyError` when it is absent |
| Systems.FetchChain | pyuniden/other_classes.py:338-351 | the first walk goes into the groups for CNV and into the sites for any other type |
| Systems.FetchTrunk | pyuniden/other_classes.py:353-372 | a CNV system sends nothing here; any other starts with `TRN,index` and walks its talk-group groups |
| Systems.FetchQuickLockout | pyuniden/other_classes.py:374-378 | sends `QGL,index`; the quick lockout is stored exactly when the stage passes |
| Systems.FetchLockouts | pyuniden/other_classes.py:640-667 | the GLI poll, then the SLI poll; the search lockout list is stored exactly when the stage passes, and only once the talk-group lockout list was stored |
| Systems.FetchSystemRecord | pyuniden/other_classes.py:329-336 | sends `SIN,index`; the fields are stored exactly when the stage passes |
| Systems.FetchSystemParts | pyuniden/other_classes.py:259-382 | `System.get_data`: a failed SIN sends nothing more and stores nothing; a pass has read the record |
| Systems.FetchChainFuel | pyuniden/other_classes.py:338-351 | the first walk that ended within its bound does the same with a larger bound and extending group and site fetches |
| Systems.FetchTrunkFuel | pyuniden/other_classes.py:353-372 | TRN and the talk-group walk that ended within its bound do the same with a larger bound and an extending group fetch |
| Systems.FetchLockoutsFuel | pyuniden/other_classes.py:640-667 | the GLI and SLI polls that ended within their bound do the same with any larger bound |
| Systems.FetchAfterChainFuel | pyuniden/other_classes.py:353-382 | everything after the first walk, once it ended within its bound, does the same with a larger bound |
| Systems.FetchSystemRestFuel | pyuniden/other_classes.py:338-382 | everything after SIN, once it ended within its bound, does the same with a larger bound |
| Systems.FetchSystemPartsFuel | pyuniden/other_classes.py:259-382 | `System.get_data` that ended within its bound does the same with any larger bound, although every group and site walk gets the larger bound too |
| Systems.FetchSystemFuel | pyuniden/other_classes.py:259-382 | the system fetch with a larger bound does what the one with the smaller does wherever that one did not run out |
| Systems.SystemLines | pyuniden/other_classes.py:384-415 | `set_data` sends SIN first and, last, the QGL line `QuickLockoutLine` builds with the source's `zero_to_tail` |
| Systems.ConventionalSendsNoTrunk | pyuniden/other_classes.py:398-410 | a CNV system sends exactly SIN, its groups and QGL: neither TRN nor any site, whatever `sites` holds |
| Systems.QuickLockoutWrittenBack | pyuniden/other_classes.py:374-415 | as the source has it, the string stored from QGL goes back out of `set_data` with its last two characters swapped when it has ten, and unchanged otherwise |
| Systems.QuickLockoutLine | pyuniden/other_classes.py:412-414 | the QGL set command `set_data` sends: a ten-character string `v0..v9` goes out as `v1..v8, v0, v9`; any other string goes out unchanged |
| Systems.CorrectedQuickLockoutLine | pyuniden/other_classes.py:412-414 | the QGL set command with the intended `zero_to_tail`: a ten-character string `v0..v9` goes out as `v1..v9, v0`; any other string unchanged |
| Systems.CorrectedQuickLockoutWrittenBack | pyuniden/other_classes.py:374-415 | with the intended `zero_to_tail`, the string stored from QGL is written back as the very text QGL returned |
| Systems.QuickLockoutLinesAgree | pyuniden/other_classes.py:412-414 | `set_data`'s QGL line equals the intended one exactly when the string does not have ten characters or its first and last characters are equal |
| Systems.SystemDumpKeys | pyuniden/other_classes.py:471-537 | sites, talk-group lockouts and search lockouts are dumped exactly for systems that are not CNV; groups and group lockout always |
| Systems.GroupOrders | pyuniden/other_classes.py:396 | some order of the groups' keys, and of each group's children |
| Systems.SiteOrders | pyuniden/other_classes.py:410 | some order of the sites' keys, and of each site's frequencies |
| Systems.System.constructor | pyuniden/other_classes.py:209-257 | the default fields, no links, no children and empty lists |
| Systems.System.NewGroup | pyuniden/other_classes.py:343-345 | a fresh group fetched with the system's type; its value names the index it was fetched from |
| Systems.System.StepGroup | pyuniden/other_classes.py:340-346 | one iteration of a group loop keeps the walk invariant and every group under its own index; only the groups change |
| Systems.System.WalkGroups | pyuniden/other_classes.py:340-346 | every group of the walk is stored under its own index; nothing else changes |
| Systems.System.NewSite | pyuniden/other_classes.py:348-350 | a fresh site fetched; its value names the index it was fetched from |
| Systems.System.StepSite | pyuniden/other_classes.py:347-351 | one iteration of the site loop keeps the walk invariant; only the sites change |
| Systems.System.WalkSites | pyuniden/other_classes.py:340-351 | every site of the walk is stored under its own index; nothing else changes |
| Systems.System.GetChain | pyuniden/other_classes.py:338-351 | the first walk, as `FetchChain` gives it |
| Systems.System.GetTrunk | pyuniden/other_classes.py:353-372 | TRN and the talk-group walk, as `FetchTrunk` gives them |
| Systems.System.GetQuickLockout | pyuniden/other_classes.py:374-378 | QGL, as `FetchQuickLockout` gives it; groups and sites are untouched |
| Systems.System.GetLockoutTgids | pyuniden/other_classes.py:640-667 | the two polls, as `FetchLockouts` gives them; groups and sites are untouched |
| Systems.System.GetTail | pyuniden/other_classes.py:374-380 | QGL and then the polls; groups and sites are untouched |
| Systems.System.GetAfterChain | pyuniden/other_classes.py:353-380 | everything after the first walk |
| Systems.System.GetRest | pyuniden/other_classes.py:338-380 | everything after SIN |
| Systems.System.GetSystemRecord | pyuniden/other_classes.py:329-336 | SIN, as `FetchSystemRecord` gives it; groups and sites are untouched |
| Systems.System.GetData | pyuniden/other_classes.py:259-382 | the whole `get_data`: the object after it is the old one with everything `FetchSystemParts` read applied |
| Systems.System.SetData | pyuniden/other_classes.py:384-415 | sends `SystemLines` (QGL through the source's `zero_to_tail`) in some order of every dictionary, stopping at the first raise |
| Systems.System.AppendSite | pyuniden/other_classes.py:593-604 | sends `AST,index,`; on success stores a default site under the returned index and changes nothing else |
| Systems.System.DeleteSite | pyuniden/other_classes.py:606-612 | sends `DGR,key`; removes exactly that site once `raw` passes, or raises `KeyError` when it is absent |
| Systems.System.AppendGroup | pyuniden/other_classes.py:614-629 | AGC for type C and AGT for type T (an empty command otherwise); on success stores a default group of the system's type under the returned index and changes nothing else |
| Systems.System.DeleteGroup | pyuniden/other_classes.py:631-638 | sends `DGR,key`; removes exactly that group once `raw` passes, or raises `KeyError` when it is absent |
| Searches.Converted | pyuniden/other_classes.py:1936-1945 | a kept value comes back as it is; a label is looked up and fails exactly when the table lacks it |
| Searches.Keys | pyuniden/other_classes.py:1936-1955 | the keys of a plan, in order |
| Searches.Blanks | pyuniden/other_classes.py:2004-2007 | a record of exactly the given keys, each the empty string |
| Searches.SrchCloseCallDistinct | pyuniden/other_classes.py:1936-1955 | `load` names each close-call search key once |
| Searches.CloseCallDistinct | pyuniden/other_classes.py:1958-1981 | each close-call key once |
| Searches.BandScopeDistinct | pyuniden/other_classes.py:1984-1991 | each band-scope key once |
| Searches.CustomSearchDistinct | pyuniden/other_classes.py:2012-2043 | each custom-search key once |
| Searches.ServiceSearchDistinct | pyuniden/other_classes.py:2081-2100 | each service-search key once |
| Searches.ServiceIndexesDistinct | pyuniden/other_classes.py:2070 | the service-search indexes hold no repeats |
| Searches.LoadFieldsMeaning | pyuniden/other_classes.py:1936-1955 | one dictionary's defaulting: it stops exactly when some given value is rejected by its conversion; if it runs through, each expected key holds `''` when absent and the converted value when given; other keys are untouched |
| Searches.LoadFieldsKeep | pyuniden/other_classes.py:1936-1955 | keys the plan does not name keep their entries |
| Searches.LoadFieldsStops | pyuniden/other_classes.py:1936-1955 | the run raises exactly when some field rejects its given value |
| Searches.LoadFieldsSets | pyuniden/other_classes.py:1936-1955 | a run that passes leaves every field as promised |
| Searches.LoadNothingIsBlank | pyuniden/other_classes.py:1936-1955 | with nothing given, every expected key becomes `''` |
| Searches.BandRecord | pyuniden/other_classes.py:1998-2001 | a given band is both limits through `frq_to_scanner`; it fails exactly when a limit is missing or rejected |
| Searches.LoadDictsMeaning | pyuniden/other_classes.py:1936-1991 | the three flat dictionaries are loaded as promised, and nothing else changes |
| Searches.LoadDictsWithMeaning | pyuniden/other_classes.py:1936-1991 | the same for any three plans of distinct keys |
| Searches.LoadBandAtMeaning | pyuniden/other_classes.py:1993-2043 | round `i` replaces only band `i` and custom search `i` |
| Searches.LoadBandsMeaning | pyuniden/other_classes.py:1993-2043 | rounds `i` to 9 touch only those slots, and set each as promised when they pass |
| Searches.LoadServiceAtMeaning | pyuniden/other_classes.py:2072-2100 | one service round replaces only its own slot |
| Searches.LoadServicesMeaning | pyuniden/other_classes.py:2070-2100 | the rounds over distinct indexes touch only those slots, and set each as promised when they pass |
| Searches.LoadRecordsMeaning | pyuniden/other_classes.py:1993-2108 | bands, custom and service searches as promised; `search_key` kept only at length 4 and `custom_search_group` only at length 10, blanks otherwise; `global_lout_frqs` replaced only when longer than one |
| Searches.LoadMeaning | pyuniden/other_classes.py:1928-2108 | the whole `load`: every dictionary, record and list as promised once it runs through |
| Searches.Search.constructor | pyuniden/other_classes.py:1538-1549 | empty dictionaries and tuples |
| Searches.Search.GetGlobalLockoutFrqs | pyuniden/other_classes.py:1824-1839 | the GLF poll; the list is stored once the poll ends on -1 |
| Searches.Search.Load | pyuniden/other_classes.py:1928-2108 | the object after `load` is what `LoadSettings` gives |
| Searches.Search.LoadDictionaries | pyuniden/other_classes.py:1936-1991 | the three flat dictionaries, as `LoadDicts` gives them |
| Searches.Search.LoadRest | pyuniden/other_classes.py:1993-2108 | the indexed records and lists |
| Searches.Search.LoadBands | pyuniden/other_classes.py:1993-2043 | the ten band rounds |
| Searches.Search.LoadBand | pyuniden/other_classes.py:1994-2043 | one band round |
| Searches.Search.LoadServicesThenLists | pyuniden/other_classes.py:2070-2108 | the service rounds, then the lists |
| Searches.Search.LoadServices | pyuniden/other_classes.py:2072-2100 | the service rounds in order |
| Searches.Search.LoadService | pyuniden/other_classes.py:2073-2100 | one service round |
| Scanners.KeyCommand | pyuniden/classes.py:214-222 | succeeds exactly when both the key and the mode are in their tables; an unknown key raises `KeyError` first, then an unknown mode |
| Scanners.KeyCodesPlain | pyuniden/classes.py:214-220 | every code and mode is one character without a comma |
| Scanners.KeyCommandFields | pyuniden/classes.py:222 | the command splits into `KEY`, the key's code and the mode's code |
| Scanners.DotCodes | pyuniden/classes.py:216-217 | dot, no and pri all send '.' |
| Scanners.ECodes | pyuniden/classes.py:217 | E, yes and gps all send 'E' |
| Scanners.PowerCodes | pyuniden/classes.py:217-218 | pwr, lock and light all send 'P' |
| Scanners.SameCode | pyuniden/classes.py:214-222 | two keys with the same code send the same command |
| Scanners.KeyAliases | pyuniden/classes.py:214-218 | scan/srch, dot/no/pri, E/yes/gps and pwr/lock/light send identical commands in every mode |
| Scanners.QuickFrequency | pyuniden/classes.py:259-260 | the frequency split raises `IndexError` exactly when there is no '.'; the result has at least eight characters |
| Scanners.QuickFrequencyAgrees | pyuniden/classes.py:259-260 | with one '.', the same encoding as `frq_to_scanner`; with more, QSH still encodes while `frq_to_scanner` fails |
| Scanners.QuickFrequencyPlain | pyuniden/classes.py:259-260 | a frequency without a comma encodes without one |
| Scanners.Without | pyuniden/classes.py:265 | `replace(c, '')` keeps exactly the other characters |
| Scanners.BScreenAcceptedMeans | pyuniden/classes.py:265-266 | the broadcast-screen test accepts exactly sixteen characters, each '0' or '1' |
| Scanners.QuickSearchCommand | pyuniden/classes.py:257-269 | checked in the source's order: no '.' raises `IndexError`, then an unknown modulation `ModulationError`, then a bad mask `BScreenError`; it succeeds exactly when all three pass |
| Scanners.QuickSearchFieldsPlain | pyuniden/classes.py:268-269 | comma-free parameters give fields that join and split back |
| Scanners.QuickSearchCommandFields | pyuniden/classes.py:268-269 | the command has exactly 14 comma fields, in the source's order |
| Scanners.QuickSearchDefaults | pyuniden/classes.py:225-228 | the default parameters of `set_quick_search_hold` and `set_curfrq_reception_status` keep the frequency given and use AUTO modulation |
| Scanners.QuickSearchDefaultsAccepted | pyuniden/classes.py:225-228 | with the default parameters the command is refused exactly when the frequency has no '.' or AUTO is not an accepted modulation (the all-'0' screen always passes) |
| Scanners.QuickSearchDefaultsFields | pyuniden/classes.py:225-269 | the default command's fields: the mnemonic, the encoded frequency, '', AUTO, 0, 2, '', 0, sixteen '0's, 0, '', 0, 0, 200 |
| Scanners.CurfrqStatus | pyuniden/classes.py:296-298 | the QSC reply unpacks exactly on four fields, into RSSI, frequency and squelch |
| Scanners.PairedMeaning | pyuniden/classes.py:149 | `zip` into a dictionary: with distinct keys, the first n keys get their values, n being the shorter length |
| Scanners.ReceptionStatusMeaning | pyuniden/classes.py:144-149 | the status holds exactly the first `min(12, fields - 1)` keys, key `i` holding reply field `i + 1` |
| Scanners.QuickLockoutPages | pyuniden/classes.py:466-474 | the QSL reply unpacks exactly on eleven fields, into ten pages |
| Scanners.Tails | pyuniden/classes.py:487-489 | one text per page, through the source's `zero_to_tail`: a ten-character page `v0..v9` becomes `v1..v8, v0, v9`, any other page is unchanged |
| Scanners.QuickLockoutCommand | pyuniden/classes.py:487-491 | the QSL command is one flat comma line: `QSL` followed by every page's text; with no pages (before any `get_scan_settings`) it is `QSL,` |
| Scanners.CorrectedTails | pyuniden/classes.py:487-489 | the pages through the intended `zero_to_tail`: a ten-character page `v0..v9` becomes `v1..v9, v0`, any other page is unchanged |
| Scanners.CorrectedQuickLockoutCommand | pyuniden/classes.py:487-491 | the QSL command with the intended `zero_to_tail`: `QSL` followed by every corrected page |
| Scanners.QuickLockoutWrittenBack | pyuniden/classes.py:466-496 | pages read from a QSL reply go back out of `set_scan_settings` as the reply with the last two characters of every ten-character page swapped; other pages are unchanged |
| Scanners.QuickLockoutReadBack | pyuniden/classes.py:466-496 | ten comma-free pages written by `set_scan_settings` read back with the first and last characters of every ten-character page swapped; other pages come back unchanged |
| Scanners.CorrectedQuickLockoutWrittenBack | pyuniden/classes.py:466-496 | with the intended `zero_to_tail`, pages read from a QSL reply are written back as the very reply |
| Scanners.CorrectedQuickLockoutReadBack | pyuniden/classes.py:466-496 | with the intended `zero_to_tail`, ten comma-free pages read back as the same pages |
| Scanners.QuickLockoutReadWrittenBack | pyuniden/classes.py:466-496 | what `get_scan_settings` stores from QSL, `set_scan_settings` sends back as that reply with the last two characters of every ten-character page swapped |
| Scanners.CorrectedQuickLockoutReadWrittenBack | pyuniden/classes.py:466-496 | with the intended `zero_to_tail`, what `get_scan_settings` stores from QSL is sent back as the very reply |
| Scanners.ProgramEntered | pyuniden/classes.py:386-395 | sends PRG; program mode is set exactly when `raw` passes, and nothing else changes |
| Scanners.ProgramExited | pyuniden/classes.py:397-402 | sends EPG; program mode is cleared exactly when `raw` passes, and nothing else changes |
| Scanners.EnteredIfNeeded | pyuniden/classes.py:450-451 | sends PRG only when not in program mode; program mode is set once it passes |
| Scanners.HeadsRead | pyuniden/classes.py:452-456 | sends SIH first; on a pass it sent exactly SIH then SIT, the head holds the second field of the SIH reply and the tail that of the SIT reply; program mode and systems are untouched |
| Scanners.QuickLockoutRead | pyuniden/classes.py:466-474 | sends QSL; ten pages are stored once it passes; program mode and systems are untouched |
| Scanners.ScanTail | pyuniden/classes.py:466-478 | QSL then EPG; once it passes, ten pages are stored and program mode is off; on failure program mode is unchanged |
| Scanners.FetchSystemKeyed | pyuniden/classes.py:461-463 | every system fetched names the index it was fetched from |
| Scanners.ScanSettingsKeyed | pyuniden/classes.py:448-478 | `get_scan_settings` keeps every system under its own index |
| Scanners.ScanSettingsWithKeyed | pyuniden/classes.py:458-464 | the same for any fetch whose systems name their index |
| Scanners.ScanFromHeadsMode | pyuniden/classes.py:452-478 | sends SIH first; a pass ends with QSL and EPG, ten pages and program mode off; a failure leaves program mode as it was |
| Scanners.ScanSettingsWithMode | pyuniden/classes.py:448-478 | the same for any fetch of systems, with PRG first exactly when not in program mode |
| Scanners.ScanSettingsMode | pyuniden/classes.py:448-478 | PRG is sent first exactly when not in program mode; a pass ends with QSL, EPG, ten pages and program mode off; a failure leaves program mode on exactly when it was on or PRG went through |
| Scanners.ScanSettingsFuel | pyuniden/classes.py:443-478 | `get_scan_settings` that ended within its bound does the same with any larger bound, the bound of every nested walk and poll included |
| Scanners.OrderOf | pyuniden/classes.py:495-496 | some order of one system's dictionaries |
| Scanners.SystemOrders | pyuniden/classes.py:495-496 | some order of the systems and of everything in each |
| Scanners.Scanner.constructor | pyuniden/classes.py:46-66 | not in program mode, no heads, no systems, no pages |
| Scanners.Scanner.EnterProgramMode | pyuniden/classes.py:386-395 | as `ProgramEntered` |
| Scanners.Scanner.ExitProgramMode | pyuniden/classes.py:397-402 | as `ProgramExited` |
| Scanners.Scanner.EnterIfNeeded | pyuniden/classes.py:450-451 | as `EnteredIfNeeded` |
| Scanners.Scanner.ReadHeads | pyuniden/classes.py:452-456 | as `HeadsRead` |
| Scanners.Scanner.ReadQuickLockout | pyuniden/classes.py:466-474 | as `QuickLockoutRead` |
| Scanners.Scanner.NewSystem | pyuniden/classes.py:461-462 | a fresh system fetched; its value names its index |
| Scanners.Scanner.StepSystem | pyuniden/classes.py:460-464 | one loop iteration keeps the walk invariant and every system under its own index |
| Scanners.Scanner.WalkSystems | pyuniden/classes.py:458-464 | every system of the walk is stored under its own index; nothing else changes |
| Scanners.Scanner.GetTail | pyuniden/classes.py:466-478 | as `ScanTail` |
| Scanners.Scanner.GetFromSystems | pyuniden/classes.py:458-478 | the system walk and the tail |
| Scanners.Scanner.GetFromHeads | pyuniden/classes.py:452-478 | the heads, the walk and the tail |
| Scanners.Scanner.GetScanSettings | pyuniden/classes.py:448-478 | as `ScanSettings`, returning 0 when nothing raised (`exit_program_mode` returns `None`) |
| Scanners.Scanner.WriteSettings | pyuniden/classes.py:487-501 | QSL with the pages through the source's `zero_to_tail`, every system's set commands and EPG; program mode is off once it passes and unchanged otherwise; returns 0 when nothing raised |
| Scanners.ScanSetLines | pyuniden/classes.py:487-498 | once in program mode, `set_scan_settings` sends QSL first, EPG last and every system's set commands between |
| Scanners.Scanner.SetScanSettings | pyuniden/classes.py:480-501 | PRG when needed, then QSL with the pages through the source's `zero_to_tail`, every system's set commands in some order, and EPG; once past PRG, program mode stays on exactly when a write raised; returns 0 when nothing raised |
| Scanners.Scanner.PushKey | pyuniden/classes.py:181-223 | an unknown key or mode raises before anything is sent; otherwise one KEY command |
| Scanners.Scanner.SetQuickSearchHold | pyuniden/classes.py:225-271 | nothing is sent when the command is refused, and the refusal is returned; otherwise one QSH command |
| Scanners.Scanner.SetCurfrqReceptionStatus | pyuniden/classes.py:273-298 | nothing is sent when the command is refused; otherwise one QSC command, its reply unpacked into RSSI, frequency and squelch |
| Scanners.Scanner.GetReceptionStatus | pyuniden/classes.py:124-149 | sends GLG and returns `ReceptionStatus` of the reply |
| Scanners.Scanner.CreateSystem | pyuniden/classes.py:537-548 | sends `CSY,type,protect`; on success stores a default system under the returned index and changes nothing else |
| Scanners.Scanner.CreateDefaultSystem | pyuniden/classes.py:537-548 | `create_system()` with its defaults sends `CSY,CNV,0`, and otherwise behaves as `CreateSystem` |
| Scanners.Scanner.DeleteSystem | pyuniden/classes.py:550-554 | sends `DSY,key`; removes exactly that system once `raw` passes, or raises `KeyError` when it is absent |

## Left out

- Serial transport: opening the port, the 0.1 s timeout, writing and reading, `close` and `__del__`. `raw` is modelled from the stripped reply onward, and the reply comes from the abstract device.
- The `time.sleep(3)` in `Settings.set_data`, and the whole `Settings` class. It is not part of this model.
- YAML and files: `dump_*_settings` and `load_*_settings` of the scanner, and every `load` method except `Search.load`.
- Logging, the `show` and `show_brief` printing methods, and the `__main__` block.
- Floating point:
  - `get_battery_voltage` and `get_window_voltage`;
  - the step conversions through `float` in `Search.load`. These are an opaque `Scale` parameter (`string -> Option<string>`), `None` where `float` raises.
- Util.FrqFromScanner: reads `frq_from_scanner` as integer division by 10000. It agrees with the float path for inputs of at most eight digits. Other inputs are returned as `FloatPath`, with no text claimed.
- The label tables that live outside the modelled files (`human_*`, `scanner_*`, the `pyuniden.constants` tables). These are parameters, and no label round trip is claimed for them.
- Names `classes.py` uses without importing them: `System`, `zero_to_head` and `zero_to_tail` (it imports neither `util.py` nor `other_classes.py`), and `mod_values`, which is defined nowhere. The model assumes the first three resolve to `other_classes.py` and `util.py`, and takes `mod_values` as a parameter.
- Systems.SystemDumpKeys and Groups.GroupDumpKeys: model only which keys `dump` selects. They do not model the values, which come from the label tables.
- The other `dump` methods, for the same reason.
- Records.ParseBandPlan: keeps the six texts of each list and drops the leading `0` placeholder of the source's tuples, so the source's position `k + 1` is the model's position `k`.
- Util.FrqToScanner: takes its argument as a string, so the integer `0` that `frq_to_scanner` returns unchanged has no counterpart; the text `"0"` fails the unpack, as in the source.
- Conversions done with `str()` on parameters. Every parameter is taken as the text `str()` would give.
- `int()` on texts with surrounding blanks. `Wire.ParseInt` accepts an optional sign and digits only.
- Dictionary iteration order (`.values()` in `set_data`). Each `set_data` chooses some order of the keys and reports it through its order out-parameters.
- Aliasing of child objects. The containers store each child's value rather than a shared object, so a child changed through another reference is not seen.
- Walks and polls that never end: these are bounded by `fuel`, which reports `Diverges`, and the methods require that this does not happen. A larger bound changes nothing once a run ended within the smaller: `Chains.WalkFuelIrrelevant` and `Chains.PollFuelIrrelevant` show it for one walk or poll, `Chains.WalkFuelsAgree` for a walk whose fetch gets the bound too, and `Groups.FetchGroupPartsFuel`, `Sites.FetchSitePartsFuel`, `Systems.FetchSystemPartsFuel` and `Scanners.ScanSettingsFuel` for the nested walks of `get_data` and `get_scan_settings`.
- `Search.get_data`, `set_data` and `dump`, the `mot_band_plan` part of `Search.load`, and the lock and unlock of global frequencies and talk groups.
- The simple getters and setters of the scanner: model, version, RSSI, current status, volume, squelch, APCO settings, jump tags, memory blocks, band coverage and system settings.
- The MCP/ABP set that `Site.set_data` leaves as a TODO. The model sends neither, as the source does.
- Two quirks modelled as written, not corrected:
  - the `== -1` test of `append_*` and `create_system` compares a string with an integer, so it never fires;
  - `delete_site` sends DGR, like `delete_group`.

## Findings

| source | as written | input that shows it | evidently intended | confidence | as-written member | corrected member |
|---|---|---|---|---|---|---|
| pyuniden/util.py:21-22 | `l.insert(9, l[0]); l.pop(0)` moves the first element to the next-to-last slot, so `zero_to_tail(zero_to_head(v))` swaps the last two elements of every ten-element `v` | `"0123456789"`: `zero_to_head` gives `"9012345678"`, and `zero_to_tail` of that gives `"0123456798"` | `zero_to_tail` moves the first element to the end (`insert(10, l[0])`), the inverse of `zero_to_head` | not executed | Util.TailAsWrittenBreaksRoundTrip | Util.TailUndoesHead |

The set commands of the model send what the source sends. `Systems.QuickLockoutLine` (the QGL of `System.set_data`) and `Scanners.Tails` (the QSL pages of `set_scan_settings`) go through `Util.ZeroToTailAsWritten`. `Systems.QuickLockoutWrittenBack`, `Scanners.QuickLockoutWrittenBack` and `Scanners.QuickLockoutReadWrittenBack` prove that what was read comes back with the last two characters of every ten-character string swapped.

The corrected half is `Util.ZeroToTail`, with `Util.TailUndoesHead` and `Util.HeadUndoesTail`. The corrected set commands `Systems.CorrectedQuickLockoutLine`, `Scanners.CorrectedTails` and `Scanners.CorrectedQuickLockoutCommand` are built on it, and the intended round trips are proved about them: `Systems.CorrectedQuickLockoutWrittenBack`, `Scanners.CorrectedQuickLockoutWrittenBack`, `Scanners.CorrectedQuickLockoutReadBack` and `Scanners.CorrectedQuickLockoutReadWrittenBack`. `Systems.QuickLockoutLinesAgree` and `Util.TailsAgree` say exactly when the two halves send the same thing.

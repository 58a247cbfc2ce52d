# VoiceToCursor, modelled in Dafny

VoiceToCursor is a desktop recorder. While recording it mutes the system audio. When
recording stops it writes the samples to a WAV file and has OpenAI transcribe them. It
then asks a chat model to polish the transcript into a prompt, wrapped in a
`[text_to_cursor]` tag pair, and pulls the polished text out of the tags. The result is
copied to the clipboard, the file is removed, and a recorded click can be replayed
(enter, click, paste, enter). A separate explorer turns a project directory into a tree
listing plus a sorted list of function names, which serves as a transcription prompt.

The model has one Dafny module per source file:

- `GptAudioProcessor` (gpt_audio_processor.dfy) covers the pipeline:
  - the transcription and chat requests, as keyword-argument maps built the way the source builds them;
  - reply normalisation;
  - the tag instruction;
  - tag extraction, stated against an independent description of the match the regular expression finds;
  - the `process_audio` composition.

  The two OpenAI endpoints are the function-valued fields of a `Service`.
- `AudioControl` (audio_controller.dfy) models `AudioController` as a class. The device is two fields: the mute flag and an integer level in percent. The class also holds the level snapshot.
- `VoiceToCursor` (voice_to_cursor.dfy) models the control logic of `VoiceRecorder` as a class. It has the recording flag, the sample buffer, the entry fields and the options. Everything the recorder does to the outside world is appended to an effect trace:
  - the stream;
  - the WAV file;
  - the clipboard;
  - the file removal;
  - the scheduled sequence;
  - the injected input.
- `ProjectExplorer` (project_explorer.dfy) works on a directory given as a datatype. Each folder's entries are in listing order, and each file carries the regular-expression matches found in it. The tree is built by methods with loops, proved equal to recursive specification functions. The properties of the listing are proved about those functions.
- `Text` (text.dfy) models the Python string built-ins the core relies on:
  - `str.strip`;
  - substring search;
  - `str.format` with a single `{text}` field, modelled as replace-all;
  - `str.join`;
  - `int()` and `str()` on integers;
  - the ordering used by `sort`.
- `Wrappers` (wrappers.dfy) holds `Option`, `Result` and `Outcome`.

Exceptions are modelled as `Err` values, or as a `Fail` outcome for `set_volume`.

## Model

| member | source | states |
|---|---|---|
| GptAudioProcessor.AvailableTranscriptionModels | gpt_audio_processor.py:245-252 | exactly the two models, "whisper-1" first and "gpt-4o-mini-transcribe" second |
| GptAudioProcessor.TranscriptionRequest | gpt_audio_processor.py:63-75 | the keyword arguments of the transcription call, built as the source builds them; TranscriptionRequestSpec states which keys appear |
| GptAudioProcessor.TranscriptionRequestSpec | gpt_audio_processor.py:63-75 | the request always has model, file and response_format. language and prompt are present exactly when given and non-empty. temperature is present exactly when given, so 0.0 is kept. No other key appears |
| GptAudioProcessor.NormalizeReply | gpt_audio_processor.py:80-108 | total (never fails). A `text` attribute wins. A plain string is returned as is. A dict gives its 'text' entry only for formats other than "text", otherwise `str(reply)`. Anything else gives `str(reply)` |
| GptAudioProcessor.TranscribeAudio | gpt_audio_processor.py:31-113 | the result is the endpoint's reply to exactly the request above, normalised for the requested format; an endpoint error is passed on |
| GptAudioProcessor.TagInstruction | gpt_audio_processor.py:142-144 | the appended sentence contains `[tag]` and, three characters after it ends (" y "), `[/tag]` |
| GptAudioProcessor.SystemMessage | gpt_audio_processor.py:141-144 | the system message, followed by the tag instruction exactly when tag_output is set |
| GptAudioProcessor.ChatRequest | gpt_audio_processor.py:141-162 | the keyword arguments of the chat call; ChatRequestSpec and ChatRequestMessages state its keys and messages |
| GptAudioProcessor.ChatRequestSpec | gpt_audio_processor.py:142-162 | keys are model, messages, temperature, plus max_tokens exactly when it is truthy, plus the additional keys. Additional values override every earlier key. Without an override the messages are [system (augmented iff tag_output), user (text unchanged)] |
| GptAudioProcessor.ChatRequestMessages | gpt_audio_processor.py:147-154 | without additional parameters the request carries exactly two messages, system then user, the user content being the input text unchanged |
| GptAudioProcessor.ProcessTextWithGpt | gpt_audio_processor.py:115-168 | the answer is the endpoint's answer to exactly the request of ChatRequestSpec (or its error) |
| GptAudioProcessor.IsFirstPair | gpt_audio_processor.py:181-182 | the match of the non-greedy DOTALL search, described without search: the leftmost start with a pair, and the shortest content from there |
| GptAudioProcessor.FirstPairUnique | gpt_audio_processor.py:181-182 | the leftmost-start, shortest-content pair the regex finds is unique |
| GptAudioProcessor.NoPairWithoutOpen | gpt_audio_processor.py:181-182 | with no `[tag]` in the text there is no tag pair at all |
| GptAudioProcessor.NoPairWithoutClose | gpt_audio_processor.py:181-182 | with no `[/tag]` after the first `[tag]` there is no tag pair at all |
| GptAudioProcessor.FoundPairIsFirst | gpt_audio_processor.py:181-185 | the first `[tag]` and the first `[/tag]` after it are the pair the regex matches |
| GptAudioProcessor.FirstOpenFirstClose | gpt_audio_processor.py:181-185 | the first `[tag]` and the first `[/tag]` after it are the regex's match, and the only one |
| GptAudioProcessor.ExtractTaggedContent | gpt_audio_processor.py:170-188 | `_extract_tagged_content` by substring search; ExtractTaggedContentOfPair and ExtractTaggedContentFallback tie it to IsFirstPair |
| GptAudioProcessor.ExtractTaggedContentFallback | gpt_audio_processor.py:184-188 | with no pair the result is the whole text stripped; in every case the result has no leading or trailing whitespace |
| GptAudioProcessor.ExtractTaggedContentAt | gpt_audio_processor.py:181-185 | extraction returns the stripped text between the first `[tag]` and the first `[/tag]` after it |
| GptAudioProcessor.ExtractTaggedContentOfPair | gpt_audio_processor.py:181-185 | whenever a pair exists, extraction returns the stripped content of the regex's match (newlines included) |
| GptAudioProcessor.FirstPairExists | gpt_audio_processor.py:181-184 | if any pair exists, the regex's match exists |
| GptAudioProcessor.NoCloseStraddles | gpt_audio_processor.py:181 | for a tag without '[', two occurrences of `[/tag]` cannot overlap |
| GptAudioProcessor.NoPairBefore | gpt_audio_processor.py:181-182 | no pair starts inside a prefix free of '[' |
| GptAudioProcessor.NoCloseInside | gpt_audio_processor.py:181-182 | in `pre + [tag] + s + [/tag] + post`, with `s` free of `[/tag]`, no `[/tag]` starts before the one after `s` |
| GptAudioProcessor.ExtractFramed | gpt_audio_processor.py:181-185 | extraction from `pre + [tag] + s + [/tag] + post` gives strip(s) when pre and the tag have no '[' and s holds no `[/tag]` |
| GptAudioProcessor.ExtractRoundTrip | gpt_audio_processor.py:181-185 | round trip: extracting from `[tag] + s + [/tag]` gives strip(s) when s holds no `[/tag]` |
| GptAudioProcessor.FormatPrompt | gpt_audio_processor.py:228 | `prompt_template.format(text=...)`: every `{text}` replaced by the transcript (ReplaceAllSingle, ReplaceAllAbsent) |
| GptAudioProcessor.RefinedResult | gpt_audio_processor.py:229-243 | the refinement asked for with tagging, and its tagged content when clean_response is set; RefineTagged computes it |
| GptAudioProcessor.ProcessAudioResult | gpt_audio_processor.py:219-243 | the composition of the four stages, an error at any stage being the result; ProcessAudio computes it and ProcessAudioEchoRoundTrip states the round trip |
| GptAudioProcessor.RefineTagged | gpt_audio_processor.py:229-243 | the refinement is always requested with tag_output on and the same tag; extraction is applied exactly when clean_response is set; an error is passed on |
| GptAudioProcessor.ProcessAudio | gpt_audio_processor.py:190-243 | the result is the composition transcribe (format "text") → template with `{text}` replaced → refine with tagging → extract iff clean_response; a failing stage fails the whole |
| GptAudioProcessor.ProcessAudioEchoRoundTrip | gpt_audio_processor.py:219-243 | with an endpoint that echoes the user message inside the requested tags, process_audio returns the formatted prompt, stripped: the whole pipeline is a round trip |
| AudioControl.AudioController.constructor | audio_controller.py:7-12 | the device is attached as it is and there is no snapshot |
| AudioControl.AudioController.GetVolume | audio_controller.py:14-16 | the device level, always within [0, 100] |
| AudioControl.AudioController.SetVolume | audio_controller.py:18-22 | below 0 or above 100 it fails with the ValueError message and the device is unchanged; otherwise get_volume() returns the value afterwards |
| AudioControl.AudioController.Mute | audio_controller.py:24-26 | sets the mute flag; level and snapshot unchanged |
| AudioControl.AudioController.Unmute | audio_controller.py:28-30 | clears the mute flag; level and snapshot unchanged |
| AudioControl.AudioController.Silence | audio_controller.py:32-35 | the snapshot becomes the current get_volume() and the device is muted; the level itself is unchanged |
| AudioControl.AudioController.Restore | audio_controller.py:37-42 | with a snapshot: unmuted, level back to the snapshot, snapshot cleared (the inner set_volume cannot fail); without one: nothing changes |
| AudioControl.AudioController.SetDefaultVolume | audio_controller.py:44-46 | set_volume with 50 by default, same outcome and state as SetVolume |
| AudioControl.SilenceThenRestore | audio_controller.py:32-42 | from any state, even already muted, silence then restore leaves the device unmuted at its earlier level with no snapshot |
| AudioControl.RestoreTwice | audio_controller.py:37-42 | a second restore changes nothing: restore is idempotent |
| VoiceToCursor.Pad2Value | voice_to_cursor.py:233 | a two-digit `%m`/`%d`/`%H`/`%M`/`%S` field is two digits reading back to the value |
| VoiceToCursor.Pad4Value | voice_to_cursor.py:233 | the `%Y` field is four digits reading back to the year |
| VoiceToCursor.Timestamp | voice_to_cursor.py:233 | `%Y%m%d_%H%M%S`: fifteen characters, '_' at index 8, digits elsewhere, and every field reads back to the date's value |
| VoiceToCursor.RecordingFileName | voice_to_cursor.py:233-234 | "recording_" followed by the timestamp followed by ".wav" |
| VoiceToCursor.PromptOption | voice_to_cursor.py:247-249 | the text field plus Tk's final newline, stripped, or None when nothing is left; PromptOptionSpec states when |
| VoiceToCursor.PromptOptionSpec | voice_to_cursor.py:247-249 | the prompt is None exactly when the text field holds only whitespace; otherwise it is a non-empty piece of the field with no whitespace at either end |
| VoiceToCursor.LanguageOption | voice_to_cursor.py:252 | None exactly for an empty entry, otherwise the entry unchanged |
| VoiceToCursor.Polished | voice_to_cursor.py:255-265 | the pipeline's result for the recording with the fixed polishing message and template, tag "text_to_cursor", cleaning on and the normalised options |
| VoiceToCursor.AfterPipeline | voice_to_cursor.py:267-281 | the file is removed exactly when the pipeline, the clipboard copy and the removal succeed, and only right after the copy. The sequence is scheduled exactly when, in addition, both coordinates are filled in. Nothing happens after a failed pipeline |
| VoiceToCursor.VoiceRecorder.constructor | voice_to_cursor.py:33-43 | not recording, empty buffer, not capturing, empty entries, first transcription model, "gpt-3.5-turbo", language "es" (widgets from lines 111-166) |
| VoiceToCursor.VoiceRecorder.StartRecording | voice_to_cursor.py:207-223 | recording set, buffer emptied, the level saved and muted, and the effects are silence, then stream opened (1 channel, 44100 Hz), then started |
| VoiceToCursor.VoiceRecorder.OnAudioBlock | voice_to_cursor.py:213-216 | appends the block's first column to the end of the buffer, earlier samples untouched |
| VoiceToCursor.VoiceRecorder.EndCapture | voice_to_cursor.py:225-230 | recording cleared; then stream stopped, closed and the device restored (unmuted, level back, no snapshot). A failing stop or close ends it there with the device untouched, so still muted with its snapshot |
| VoiceToCursor.VoiceRecorder.StopRecording | voice_to_cursor.py:225-238 | the effects of EndCapture; if stop and close succeed, the whole buffer written at 44100 Hz to the recording file and what process_audio does with it; a failing write ends it after the restore, with nothing processed |
| VoiceToCursor.VoiceRecorder.SaveAndProcess | voice_to_cursor.py:232-238 | the WAV file named after the time, holding the whole buffer, then process_audio on it; a failing write does nothing |
| VoiceToCursor.VoiceRecorder.ProcessAudio | voice_to_cursor.py:240-281 | runs the pipeline with the normalised options, the polishing message and template, tag "text_to_cursor" and cleaning on; the effects that follow are those of AfterPipeline |
| VoiceToCursor.VoiceRecorder.Deliver | voice_to_cursor.py:267-281 | copy, remove the file, schedule the sequence when both entries are set; any failure ends it there |
| VoiceToCursor.VoiceRecorder.ToggleRecording | voice_to_cursor.py:201-205 | the flag alternates. A start leaves the level saved and muted. A stop whose stream stops and closes leaves the device unmuted at the saved level with no snapshot, and the buffer written when the write succeeds; one that fails there leaves the device untouched |
| VoiceToCursor.VoiceRecorder.ToggleCapture | voice_to_cursor.py:294-306 | capture mode alternates |
| VoiceToCursor.VoiceRecorder.CaptureClick | voice_to_cursor.py:308-316 | the entries hold `str(x_root)` and `str(y_root)` and capture mode is off |
| VoiceToCursor.VoiceRecorder.ResetCaptureMode | voice_to_cursor.py:318-324 | capture mode is off |
| VoiceToCursor.VoiceRecorder.ExecuteSequence | voice_to_cursor.py:326-366 | an empty or non-integer entry injects nothing; otherwise enter, click (x, y), paste, enter, in that order, cut short at the first failing injection |
| VoiceToCursor.VoiceRecorder.Inject | voice_to_cursor.py:342-361 | the first `injectionsOk` of enter, click (x, y), paste, enter, in that order |
| VoiceToCursor.CapturedClickIsReplayed | voice_to_cursor.py:308-361 | after capture_click(x, y), a successful sequence performs exactly enter, click at (x, y), paste, enter: `int(str(n)) == n` |
| VoiceToCursor.RecordOneBlock | voice_to_cursor.py:201-238 | start, one block, stop: when the stream stops and closes, the device ends unmuted at its earlier level with no snapshot and a written WAV file holds exactly the block's first channel; otherwise it stays muted with that level as the snapshot |
| ProjectExplorer.FoldersOf | project_explorer.py:55-67 | the folders of a listing kept by the loop, in listing order (PartitionMembers, PartitionSkipsIgnored) |
| ProjectExplorer.FilesOf | project_explorer.py:55-67 | the files of a listing, in listing order (PartitionMembers) |
| ProjectExplorer.PartitionMembers | project_explorer.py:60-67 | the folders kept are exactly the listing's folders not ignored; the files are exactly its files (none filtered by name) |
| ProjectExplorer.FoldersOfAppend | project_explorer.py:60-67 | the partition of a concatenated listing is the concatenation of the partitions |
| ProjectExplorer.PartitionSkipsIgnored | project_explorer.py:62-65 | an ignored folder anywhere in the listing adds neither a folder nor a file |
| ProjectExplorer.InsertByNamePermutes | project_explorer.py:69-70 | one insertion step adds the entry and loses nothing (multiset) |
| ProjectExplorer.InsertByNameBound | project_explorer.py:69-70 | inserting an entry no smaller than a bound keeps every name at least that bound |
| ProjectExplorer.InsertByNameSorted | project_explorer.py:69-70 | inserting into a sorted list keeps it sorted by name |
| ProjectExplorer.InsertByNameMembers | project_explorer.py:69-70 | insertion holds the new entry and every old one, nothing else |
| ProjectExplorer.SortByName | project_explorer.py:69-70 | `sort(key=name)` as an insertion sort, sorted and a permutation by SortByNameSorted and SortByNamePermutes |
| ProjectExplorer.SortByNamePermutes | project_explorer.py:69-70 | sorting is a permutation |
| ProjectExplorer.SortByNameMembers | project_explorer.py:69-70 | sorting keeps exactly the entries it was given |
| ProjectExplorer.SortByNameSorted | project_explorer.py:69-70 | sorting orders the entries by name |
| ProjectExplorer.ListingMembers | project_explorer.py:55-70 | a directory's sorted folders are its non-ignored folders, its sorted files are its files |
| ProjectExplorer.Tree | project_explorer.py:48-52 | for the root, the first line is its name followed by "/" |
| ProjectExplorer.Below | project_explorer.py:54-89 | a directory's lines at a prefix: the sorted folder blocks, then the sorted file lines (DirectoryListing) |
| ProjectExplorer.FolderLines | project_explorer.py:73-84 | each folder's own line followed by its tree one level deeper (FolderChildrenIndented, FolderEntryLines) |
| ProjectExplorer.FileLines | project_explorer.py:87-89 | one line per file, "└─ " only for the last (FileEntryLines) |
| ProjectExplorer.GetFileTree | project_explorer.py:36-91 | the lines are the tree whose properties RootTree, DirectoryListing, FolderChildrenIndented, TreePrefixed and IgnoredFolderInvisible state |
| ProjectExplorer.ListEntries | project_explorer.py:54-91 | partition, sort both groups, folder blocks, then file lines |
| ProjectExplorer.ListFolders | project_explorer.py:73-84 | the loop over the folders produces each folder's line followed by its subtree |
| ProjectExplorer.SplitListing | project_explorer.py:55-67 | the loop partitions the listing into the folders kept and the files, in listing order |
| ProjectExplorer.ListFiles | project_explorer.py:87-89 | the loop over the files produces one line per file |
| ProjectExplorer.TreePrefixed | project_explorer.py:36-91 | below the root, every line of a directory's tree starts with its prefix |
| ProjectExplorer.FolderChildrenIndented | project_explorer.py:73-84 | a folder's block is its own line (connector, name, "/") followed by its subtree, every line of which starts with the parent prefix plus "    " when the folder is last and "│   " otherwise |
| ProjectExplorer.FolderLinesPrefixed | project_explorer.py:73-84 | every folder line and every line below it starts with the prefix |
| ProjectExplorer.FileLinesPrefixed | project_explorer.py:87-89 | every file line starts with the prefix |
| ProjectExplorer.RootTree | project_explorer.py:48-52 | the first line is the root's name and "/", and every other line starts with two spaces |
| ProjectExplorer.EntryLinesAppend | project_explorer.py:84 | the entry lines of concatenated blocks are the concatenated entry lines |
| ProjectExplorer.EntryLinesOfDeeper | project_explorer.py:79-84 | a subtree one level deeper lists nothing directly under the parent's prefix |
| ProjectExplorer.EntryLinesBlock | project_explorer.py:75-84 | a folder's line followed by its subtree adds exactly that line to the entries directly under the prefix |
| ProjectExplorer.FolderEntryLines | project_explorer.py:73-75 | directly under the prefix, the folder blocks list each folder once, in order, with "└─ " exactly for the last folder of a directory without files, "├─ " otherwise, and a trailing "/" |
| ProjectExplorer.FileEntryLines | project_explorer.py:87-89 | the file lines list each file once, in order, with "└─ " exactly for the last file |
| ProjectExplorer.DirectoryListing | project_explorer.py:55-89 | directly under the prefix, all folders come before all files, each group sorted by name, holding exactly the non-ignored folders and all files, with the connector rules above |
| ProjectExplorer.ListingEntryLines | project_explorer.py:73-89 | the entry lines of the folder blocks followed by the file lines follow the connector rules |
| ProjectExplorer.IgnoredFolderInvisible | project_explorer.py:62-65 | inserting an ignored folder anywhere, whatever it holds, leaves the whole tree unchanged |
| ProjectExplorer.BelowIgnored | project_explorer.py:62-65 | inserting an ignored folder leaves a directory's entry lines unchanged |
| ProjectExplorer.FolderLinesOtherDir | project_explorer.py:73-84 | the folder lines depend only on the folders listed |
| ProjectExplorer.LastDot | project_explorer.py:103 | the index of the last '.', or None when there is none |
| ProjectExplorer.Ext | project_explorer.py:103 | the extension `os.path.splitext` gives: from the last '.' on, unless only dots precede it (ExtOfStem) |
| ProjectExplorer.ExtOfStem | project_explorer.py:103 | `splitext` of a stem holding a non-dot, then a dot and a dot-free suffix, gives that suffix |
| ProjectExplorer.FirstNonEmpty | project_explorer.py:120 | the first non-empty group, or "" (FirstNonEmptySpec) |
| ProjectExplorer.FirstNonEmptySpec | project_explorer.py:120 | the name is empty exactly when every group is; otherwise it is the first non-empty group |
| ProjectExplorer.MatchNames | project_explorer.py:118-120 | one candidate name per match, in match order |
| ProjectExplorer.IndexOf | project_explorer.py:121 | the index of the first occurrence |
| ProjectExplorer.Dedup | project_explorer.py:117-122 | the names the loop keeps (DedupMembers, DedupNoDuplicates, DedupFirstOrder) |
| ProjectExplorer.DedupMembers | project_explorer.py:117-122 | the loop keeps exactly the non-empty names |
| ProjectExplorer.DedupNoDuplicates | project_explorer.py:121-122 | the loop keeps each name once |
| ProjectExplorer.IndexOfAppend | project_explorer.py:121-122 | appending a name does not move the first occurrence of an existing one |
| ProjectExplorer.DedupFirstOrder | project_explorer.py:117-122 | the names kept are in the order of their first occurrence |
| ProjectExplorer.DedupOrderStep | project_explorer.py:118-122 | one more match keeps the first-occurrence order |
| ProjectExplorer.DedupPairStep | project_explorer.py:118-122 | two names kept before one more match keep their order |
| ProjectExplorer.FunctionsOf | project_explorer.py:93-126 | the names one file contributes (FunctionsOfSpec) |
| ProjectExplorer.FunctionsOfSpec | project_explorer.py:103-126 | an extension without a pattern or an unreadable file gives []; otherwise every non-empty candidate name once and nothing else |
| ProjectExplorer.ExtractFunctionsFromFile | project_explorer.py:93-126 | the loop keeps each non-empty first group unless already kept |
| ProjectExplorer.Walk | project_explorer.py:146-158 | the names in `os.walk` order: a directory's files, then each non-ignored folder; CollectFunctions computes it |
| ProjectExplorer.CollectFunctions | project_explorer.py:146-158 | the walk collects the names of a directory's files, then those below each non-ignored folder |
| ProjectExplorer.CollectFromFiles | project_explorer.py:151-158 | the loop over one directory's files collects their names in order |
| ProjectExplorer.CollectFile | project_explorer.py:151-158 | one file's names join those collected |
| ProjectExplorer.CollectFromFolders | project_explorer.py:146-149 | the walk descends into each non-ignored folder in listing order |
| ProjectExplorer.WalkFolder | project_explorer.py:146-149 | one folder's names join those collected |
| ProjectExplorer.InsertUnique | project_explorer.py:161 | inserting into a strictly sorted list keeps it strictly sorted and adds exactly that name |
| ProjectExplorer.SortedUnique | project_explorer.py:161 | `sorted(list(set(names)))`: strictly increasing and holding exactly the given names |
| ProjectExplorer.Scan | project_explorer.py:128-163 | a missing path gives ([], []). Otherwise the tree starts with the root line, and the names are sorted, have no duplicates and are exactly the names the walk found |
| ProjectExplorer.ScanProject | project_explorer.py:128-163 | returns what Scan describes |
| ProjectExplorer.PromptText | project_explorer.py:172-194 | the prompt built from a tree and a name list (JoinFiveParts, PromptSections) |
| ProjectExplorer.GenerateTranscriptionPrompt | project_explorer.py:165-194 | the parts are appended one by one and joined by "\n". The result is the text of JoinFiveParts: header, tree or note, the "\n" part, header, names or note |
| ProjectExplorer.JoinFiveParts | project_explorer.py:175-194 | joining the five parts by "\n" gives header, "\n", tree, "\n", "\n", "\n", header, "\n", names |
| ProjectExplorer.GetProjectTranscriptionPrompt | project_explorer.py:197-209 | the prompt of an explorer for that project |
| ProjectExplorer.PromptSections | project_explorer.py:175-194 | the prompt opens with the file header on its own line and closes with the names joined by ", ", or the note when there are none |
| Text.Strip | gpt_audio_processor.py:185-188 | `str.strip()` (StripSpec, StripNoEdgeSpace) |
| Text.TrimLeftCuts | gpt_audio_processor.py:185 | the left trim is a suffix of the input. Only whitespace is cut, and the result does not start with whitespace |
| Text.TrimRightCuts | gpt_audio_processor.py:188 | the right trim is a prefix of the input. Only whitespace is cut, and the result does not end with whitespace |
| Text.StripSpec | gpt_audio_processor.py:185-188 | `strip` returns a slice of the input with only whitespace outside it and none at its ends |
| Text.StripNoEdgeSpace | gpt_audio_processor.py:185-188 | `strip` leaves a string without edge whitespace unchanged |
| Text.FindFrom | gpt_audio_processor.py:181-182 | the first occurrence at or after a position, within the text (FindFromFirst, FindFromReaches) |
| Text.FindFromFound | gpt_audio_processor.py:181-182 | a found position is an occurrence |
| Text.FindFromFirst | gpt_audio_processor.py:181-182 | a found position is the first occurrence from the start point; None means there is none |
| Text.FindFromSome | gpt_audio_processor.py:181-182 | a found position is an occurrence with none before it |
| Text.FindFromNone | gpt_audio_processor.py:181-182 | not found means no occurrence from the start point |
| Text.FindFromReaches | gpt_audio_processor.py:181-182 | any occurrence from the start point is found, at it or earlier |
| Text.ReplaceAll | gpt_audio_processor.py:228 | every placeholder, scanned left to right without overlap, replaced (ReplaceAllSingle, ReplaceAllAbsent) |
| Text.ReplaceAllAbsent | gpt_audio_processor.py:228 | formatting a template without the placeholder leaves it unchanged |
| Text.ReplaceAllSkipsPrefix | gpt_audio_processor.py:228 | text that cannot start the placeholder is copied unchanged |
| Text.ReplaceAllSingle | gpt_audio_processor.py:228 | a template with one `{text}` gets exactly the transcript in its place |
| Text.Join | project_explorer.py:180 | `sep.join(parts)` (JoinCons, JoinFiveParts) |
| Text.JoinCons | project_explorer.py:180 | joining is the first part, the separator, then the rest joined |
| Text.NatToString | voice_to_cursor.py:311 | a non-empty string of digits |
| Text.IntToString | voice_to_cursor.py:311 | `str(n)` is non-empty and has no edge whitespace |
| Text.ParseInt | voice_to_cursor.py:336-337 | `int()` of a blank string fails |
| Text.ParseIntNeedsDigit | voice_to_cursor.py:336-340 | `int()` succeeds only on a string holding a digit |
| Text.DigitsValueOfNatToString | voice_to_cursor.py:311 | the digits of `str(n)` read back to n |
| Text.ParseIntOfIntToString | voice_to_cursor.py:311-337 | round trip `int(str(n)) == n` |
| Text.LessIrreflexive | project_explorer.py:161 | the string order is irreflexive |
| Text.LessTotal | project_explorer.py:161 | the string order is total |
| Text.LessTransitive | project_explorer.py:161 | the string order is transitive |

## Left out

- pc_controller.py is not part of this model. Its `enter`, `click_izquierdo` and `pegar` appear only as trace events (`PressEnter`, `LeftClick`, `Paste`).
- The OpenAI client, the API key and `.env` loading are left out. The two endpoints are the `transcribe` and `complete` functions of a `Service` value, and an exception they raise is an `Err`.
- pycaw/COM device access is left out. So is the float conversion between the device's scalar and the percentage. The level is a whole percentage.
  - AudioControl.AudioController.GetVolume: does not model `GetMasterVolumeLevelScalar() * 100` as a float, so a level that is not a whole percentage cannot be represented.
  - AudioControl.AudioController.SetDefaultVolume: the default is the integer 50, not the float 50.0.
- sounddevice, WAV writing, `pyperclip`, `os.remove` and `root.after` are effects in the trace. The stream object is a state field. Whether `stream.stop()`, `stream.close()`, the WAV write, the clipboard copy and the removal succeed is an input (`HostIO`). A failure to open the stream is not modelled. Neither is a partial file left behind by a failing write.
- The stream callback runs on its own thread. Its calls are modelled as sequential `OnAudioBlock` calls, and the `print(status)` it may do is left out.
- `datetime.now()` is a parameter of `StopRecording`. It is a valid date with a four-digit year.
- The tkinter interface is left out:
  - widget construction and layout;
  - message boxes;
  - `update_cursor_position`;
  - the capture overlay window;
  - `explore_project` (its result only fills the prompt text field, which is a plain field here);
  - `run`.

  Widget values are plain fields.
- VoiceToCursor.VoiceRecorder.ToggleRecording: on a stop it states only the first four effects (stream stopped, closed, restored, WAV written); the rest, and the effects of a failing stop, close or write, are the contract of StopRecording.
- VoiceToCursor.VoiceRecorder.StopRecording: requires that a recording is in progress, as its only caller `toggle_recording` ensures; called otherwise the source would use a missing or closed stream.
- The message-box warning when the API key is missing (voice_to_cursor.py:28-31) is left out with the key itself.
- The `time.sleep` pauses in `execute_sequence` are left out. Failing injections are modelled by the number of injections that succeed.
- The regular-expression engine is left out:
  - For `_extract_tagged_content`, the match is described independently (`IsFirstPair`) and computed by substring search. The tag is taken as plain text. The round-trip lemmas also need the tag to hold no '['.
  - For `function_patterns`, each file carries its matches as input, each match given as its list of groups.
- `os.listdir`, `os.walk`, `os.path.isdir` and file reading are replaced by the `Entry` datatype. `os.path.basename` of the root is its `name`. Symbolic links are not modelled.
- ProjectExplorer.GetFileTree, ProjectExplorer.ScanProject: a folder whose listing fails (no read permission) is not modelled; every `Folder` lists its entries. In the source such a subfolder makes `_get_file_tree`'s unguarded `os.listdir` (project_explorer.py:55) raise, so `scan_project`, `generate_transcription_prompt` and `get_project_transcription_prompt` fail. The walk (`os.walk` without `onerror`, project_explorer.py:146) silently skips that same folder.
- ProjectExplorer.ScanProject: requires the project, when present, to be a directory. A path that exists but is a file is not modelled.
- ProjectExplorer.SortByName: ties between equal names cannot occur in a real listing. The sort is stated as sorted plus a permutation, not as Python's stable sort.
- `str.format` is modelled as replacing every `{text}`. Templates with other braces are not modelled, and neither are format specifications.
- `int()` is modelled as strip, an optional sign and ASCII digits. Underscores between digits and non-ASCII digits are not accepted.
  - Text.ParseInt: its own contract only says that blank input fails. The round trip `int(str(n)) == n` is ParseIntOfIntToString.
- Characters are Dafny `char`s and strings are compared by code point. `IsSpace` is Python's full `str.isspace()` set: the ASCII whitespace, U+001C to U+001F, U+0085, U+00A0, U+1680, U+2000 to U+200A, U+2028, U+2029, U+202F, U+205F and U+3000.

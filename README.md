# MelodyMapper core, modelled in Dafny

MelodyMapper records or uploads a melody, sends it to a Flask server that turns it
into MIDI and MusicXML, and lets the user download the results and browse past
conversions. This project models the parts of that system that hold logic:

- **Conversion dialog** (`convert_file_modal.dfy`, module `ConvertFileModal`).
  - The seven `useState` fields of `ConvertFileModal.jsx` become the class `ConvertDialog`.
  - Each handler is a method proved against a pure transition on the value `Dialog`: `Convert`, `Resolve`, `TryAgain`, `Dismiss`, `UploadAnother`.
  - The title and the footer are pure derivations of the same value.
  - The end of the request is its own step, `HandleResponse`. It takes the outcome of `fetch` and of `response.json()` as a parameter.
  - There is no explicit guard against a second submission. It is stated as the enabling precondition `CanConvert`: the convert button is on screen and enabled.
- **Upload panel** (`file_upload.dfy`, module `FileUpload`).
  - `getAbbreviatedFileName` is rebuilt from the JavaScript built-ins it uses: `split(".").pop()`, `replace` of the first occurrence, and `substring`. Lengths count characters, not UTF-16 code units (see "Left out").
  - The class `FileUploader` holds `file`, `fileSelected`, `chooseFileLabel` and `showFileDetailsModal`.
- **Recorder** (`record_audio.dfy`, module `RecordAudio`).
  - `startRecording`, the settling of `getUserMedia`, `ondataavailable` and `stopRecording` are separate methods of `Recorder`.
  - The stream's tracks are objects, and the `forEach` that stops them is a loop.
  - Every object URL created is kept in a list, which shows that none is ever revoked.
- **Playback button** (`playback_audio.dfy`, module `PlaybackAudio`): the three-valued label and the `ended` event.
- **History table** (`conversion_history.dfy`, module `ConversionHistory`).
  - Sorting is modelled by comparator and direction, and proved to order the list and keep the same entries.
  - Also modelled: the lower-cased search filter, the ten-row pages, the page count, the sort indicator and the header-to-criterion mapping.
- **Base64 on the wire**.
  - `base64.dfy` (module `Base64`) models the server's `BinaryConverter`, which follows section 4 of RFC 4648. It proves the round trip, the encoded length and the alphabet.
  - `download_midi.dfy` (module `MidiDownload`) models the client's `base64ToBlob`. Its copy loop fills an array, and the bytes are proved to be the decoded octets.
  - `MidiDownload.ClientDecodesServer` joins the two: whatever the server encodes, the client decodes back to the same bytes.

`wrappers.dfy` holds the `Option` type.

The model keeps these behaviours of the code, which a reader might not expect:

- A refused microphone request does not put the recorder back in its earlier state. The button keeps saying "Stop Recording" (`RecordAudio.PermissionDeniedScenario`).
- A 201 answer whose body does not parse sets both the completion flag and the error flag (`ConvertFileModal.CreatedButUnparsable`).
- "Upload Another File" never clears name or email. It clears the title only after a success (`ConvertFileModal.UploadAnother`).
- The "Email" header sorts by date and the "Date" header sorts by email (`ConversionHistory.HeaderCriterion`).
- The paginator counts the unfiltered list, so a search can leave trailing pages empty (`ConversionHistory.EmptyPagesAfterFilter`).
- A file name without a dot is abbreviated to its prefix, then "... .", then the whole name again (`FileUpload.AbbreviateDotlessName`).
- In the success panel, the button that downloads MIDI is captioned "Download musicxml" and the other one "Download MIDI". This affects captions only, and the model does not represent captions.

## Model

| member | source | states |
|---|---|---|
| Base64.SextetChar | server/app/utils/base64_converter.py:39 | every sextet is written as a character of the Base64 alphabet |
| Base64.CharSextet | server/app/utils/base64_converter.py:52 | a character has a value exactly when it is in the alphabet, and that value is written back as the same character |
| Base64.SextetCharRoundTrip | server/app/utils/base64_converter.py:29-52 | reading the character written for a sextet gives the sextet back |
| Base64.EncodeGroup | server/app/utils/base64_converter.py:39 | three octets become four characters |
| Base64.Encode | server/app/utils/base64_converter.py:29-39 | the encoding of n octets has 4·ceil(n/3) characters |
| Base64.DecodeGroup | server/app/utils/base64_converter.py:52 | four sextets carry three octets |
| Base64.DecodeQuantum | server/app/utils/base64_converter.py:52 | a quantum yields one to three octets; only the last quantum may be padded, so any other yields exactly three |
| Base64.Decode | server/app/utils/base64_converter.py:42-52 | accepted text is a whole number of quanta, and its octet count lies between 3·quanta − 2 and 3·quanta |
| Base64.PadCount | server/app/utils/base64_converter.py:39 | at most two pad characters, and they complete the input length to a multiple of three |
| Base64.GroupRoundTrip | server/app/utils/base64_converter.py:29-52 | a full group decodes back to its three octets, whether or not it is the last quantum |
| Base64.OneOctetRoundTrip | server/app/utils/base64_converter.py:29-52 | the "xx==" quantum of a single octet decodes back to that octet |
| Base64.TwoOctetRoundTrip | server/app/utils/base64_converter.py:29-52 | the "xxx=" quantum of two octets decodes back to them |
| Base64.DecodeCons | server/app/utils/base64_converter.py:42-52 | a full non-final group followed by valid text decodes to the group's octets, then the rest |
| Base64.DecodeEncode | server/app/utils/base64_converter.py:29-52 | decode_binary(encode_binary(b)) == b for every byte string b |
| Base64.EncodeAlphabet | server/app/utils/base64_converter.py:39 | the encoding is alphabet characters followed by exactly PadCount(n) '=' characters, and no '=' comes earlier |
| Base64.EncodeEmpty | server/app/utils/base64_converter.py:39 | the encoding is empty exactly for empty input |
| Base64.OneOctetExample | server/app/utils/base64_converter.py:29-52 | the octet 65 encodes to "QQ==", and "QQ==" decodes to it |
| MidiDownload.Latin1 | client/src/utils/downloadMidi.js:34 | the character atob emits for an octet has that octet as its code |
| MidiDownload.Atob | client/src/utils/downloadMidi.js:34 | atob succeeds exactly when the payload decodes; its output has one character per decoded octet, whose code is that octet |
| MidiDownload.ToUint8 | client/src/utils/downloadMidi.js:39 | a number in 0..255 is stored unchanged in a Uint8Array |
| MidiDownload.CharCodeBytes | client/src/utils/downloadMidi.js:35-39 | one byte per character, each the ToUint8 of the character code |
| MidiDownload.Base64ToBlob | client/src/utils/downloadMidi.js:32-43 | a blob exists exactly when the payload decodes; its bytes are the decoded octets (proved through the copy loop's invariant) and its type is the given MIME type |
| MidiDownload.LatinCodesRoundTrip | client/src/utils/downloadMidi.js:34-39 | the character codes of atob's output are exactly the decoded octets |
| MidiDownload.DownloadMidi | client/src/utils/downloadMidi.js:45-58 | the saved file has type "audio/midi", the decoded bytes, and the given file name |
| MidiDownload.ClientDecodesServer | client/src/utils/downloadMidi.js:32-39 | the client decodes the server's encoding of any byte string back to the same bytes |
| FileUpload.FindFrom | client/src/components/upload/FileUpload.jsx:95 | the result is the first occurrence at or after the start position, or none when there is no occurrence |
| FileUpload.RemoveFirst | client/src/components/upload/FileUpload.jsx:95 | replace with a string pattern removes only the first occurrence, and without an occurrence the string is unchanged |
| FileUpload.LastIndexOf | client/src/components/upload/FileUpload.jsx:94 | the result is the last position of the character, and it is absent exactly when the character is absent |
| FileUpload.Extension | client/src/components/upload/FileUpload.jsx:94 | the extension has no dot; without a dot it is the whole name; otherwise the name is prefix + "." + extension |
| FileUpload.BaseName | client/src/components/upload/FileUpload.jsx:95 | the name with the first occurrence of "." + extension removed |
| FileUpload.AbbreviatedFileName | client/src/components/upload/FileUpload.jsx:93-100 | the name itself when the base fits; otherwise the first `length` characters of the base, then "... .", then the extension |
| FileUpload.BaseNameLength | client/src/components/upload/FileUpload.jsx:94-95 | for a name with a dot, forming the base removes exactly "." + extension |
| FileUpload.AbbreviateStemAndExtension | client/src/components/upload/FileUpload.jsx:93-100 | for stem.ext with no other dot, the extension is ext, the base is stem, and the result is the name or the stem prefix + "... ." + ext |
| FileUpload.AbbreviateDotlessName | client/src/components/upload/FileUpload.jsx:93-100 | a long name without a dot becomes its prefix, "... .", and the whole name again |
| FileUpload.FileUploader.constructor | client/src/components/upload/FileUpload.jsx:28-40 | no file, no selection, caption "Choose File", dialog closed |
| FileUpload.FileUploader.UploadButtonCaption | client/src/components/upload/FileUpload.jsx:152 | the caption starts with "Upload "; then comes the whole file name when its base has at most 10 characters, else the base's first 10 characters, "... ." and the extension |
| FileUpload.FileUploader.UploadButtonVisible | client/src/components/upload/FileUpload.jsx:143 | the upload button is rendered iff a file is stored and a selection is active |
| FileUpload.FileUploader.HandleFileChange | client/src/components/upload/FileUpload.jsx:72-84 | a picked file is stored with caption "Change File"; an undefined entry clears the flag and caption and keeps the stored file; the upload button shows exactly when a file was picked |
| FileUpload.FileUploader.HandleShow | client/src/components/upload/FileUpload.jsx:56-58 | opens the dialog and changes nothing else |
| FileUpload.FileUploader.HandleClose | client/src/components/upload/FileUpload.jsx:45-51 | closes the dialog, forgets the file, resets flag and caption; the upload button disappears |
| FileUpload.FileUploader.SetFile | client/src/components/upload/FileUpload.jsx:107 | the setter replaces only the file |
| ConvertFileModal.Initial | client/src/components/upload/ConvertFileModal.jsx:25-39 | all flags false, all three fields empty, no response |
| ConvertFileModal.ModalTitle | client/src/components/upload/ConvertFileModal.jsx:187-194 | each title holds exactly under its condition, with priority converting > complete > error > "Convert File" |
| ConvertFileModal.SelectFileLabel | client/src/components/upload/ConvertFileModal.jsx:264-268 | "Upload Another File" iff complete; otherwise "Change File" iff a file is present, else "Choose File" |
| ConvertFileModal.FooterOf | client/src/components/upload/ConvertFileModal.jsx:243-284 | hidden iff converting; only "Try Again" iff an error shows; the convert button is present iff a file is there and the conversion is not complete; it is enabled iff name, email and title are also non-empty |
| ConvertFileModal.CanDismiss | client/src/components/upload/ConvertFileModal.jsx:180-186 | the close button and backdrop dismiss the dialog iff it is not converting |
| ConvertFileModal.FormShown | client/src/components/upload/ConvertFileModal.jsx:198-241 | the form with the three fields is shown iff the dialog is neither converting, complete nor in error |
| ConvertFileModal.DownloadsShown | client/src/components/upload/ConvertFileModal.jsx:198-233 | the success panel with the two downloads is shown iff not converting and complete |
| ConvertFileModal.Convert | client/src/components/upload/ConvertFileModal.jsx:44-60 | only isConverting changes; afterwards no button can start, retry or dismiss anything, and the title reads "Converting" |
| ConvertFileModal.RequestOf | client/src/components/upload/ConvertFileModal.jsx:49-54 | the posted form carries the name, email, title and file of the dialog |
| ConvertFileModal.Resolve | client/src/components/upload/ConvertFileModal.jsx:61-83 | converting ends; complete iff status 201; error iff not (201 with a parsed body); the response is stored only from a parsed 201; name, email, title and file stay; the title shows success iff 201 and error otherwise |
| ConvertFileModal.Dismiss | client/src/components/upload/ConvertFileModal.jsx:89-94 | both flags and the title are cleared, the file is forgotten, name and email stay, and the form is back |
| ConvertFileModal.UploadAnother | client/src/components/upload/ConvertFileModal.jsx:99-111 | completion is cleared and the file is forgotten; the title is cleared only after a success; name and email stay |
| ConvertFileModal.TryAgain | client/src/components/upload/ConvertFileModal.jsx:116-118 | only the error flag is cleared |
| ConvertFileModal.RetryRestoresForm | client/src/components/upload/ConvertFileModal.jsx:61-118 | after a failed request and "Try Again", the same name, email, title and file are back with the convert button enabled |
| ConvertFileModal.CreatedButUnparsable | client/src/components/upload/ConvertFileModal.jsx:65-83 | a 201 with an unparsable body leaves complete and error both set: success title and downloads, "Try Again" footer, no new response |
| ConvertFileModal.UploadAnotherAfterSuccess | client/src/components/upload/ConvertFileModal.jsx:99-111 | after a success, "Upload Another File" is offered and keeps name and email while clearing title and file |
| ConvertFileModal.ConvertDialog.constructor | client/src/components/upload/ConvertFileModal.jsx:25-39 | the dialog starts in the initial state |
| ConvertFileModal.ConvertDialog.EditName | client/src/components/upload/ConvertFileModal.jsx:154 | typing changes only the name |
| ConvertFileModal.ConvertDialog.EditEmail | client/src/components/upload/ConvertFileModal.jsx:162 | typing changes only the email |
| ConvertFileModal.ConvertDialog.EditTitle | client/src/components/upload/ConvertFileModal.jsx:170 | typing changes only the title |
| ConvertFileModal.ConvertDialog.HandleConvert | client/src/components/upload/ConvertFileModal.jsx:44-60 | the new state is Convert of the old, and the request carries the form |
| ConvertFileModal.ConvertDialog.HandleResponse | client/src/components/upload/ConvertFileModal.jsx:61-83 | the step-by-step setter calls give Resolve of the old state |
| ConvertFileModal.ConvertDialog.HandleDismiss | client/src/components/upload/ConvertFileModal.jsx:89-94 | the new state is Dismiss of the old, and the upload panel is closed and reset |
| ConvertFileModal.ConvertDialog.HandleUploadAnotherFile | client/src/components/upload/ConvertFileModal.jsx:99-111 | the new state is UploadAnother of the old; the panel's flag, caption and dialog visibility stay |
| ConvertFileModal.ConvertDialog.HandleTryAgain | client/src/components/upload/ConvertFileModal.jsx:116-118 | the new state is TryAgain of the old |
| ConvertFileModal.ConvertDialog.HandleDownloadMidi | client/src/components/upload/ConvertFileModal.jsx:121-128 | downloads title + ".mid" holding the decoded `midi_data`; nothing when no response is stored or the payload does not decode |
| ConvertFileModal.ConvertDialog.HandleDownloadXml | client/src/components/upload/ConvertFileModal.jsx:130-137 | passes the stored `xml_data` with title + ".musicxml"; nothing when no response is stored |
| ConvertFileModal.CreatedScenario | client/src/components/upload/ConvertFileModal.jsx:44-137 | a filled form answered by 201 with title "demo" and `midi_data` "QQ==" shows success and downloads "demo.mid" holding the octet 65, and "demo.musicxml" |
| ConvertFileModal.FailureThenRetryScenario | client/src/components/upload/ConvertFileModal.test.js:182-235 | a 500 answer shows the error title; after "Try Again" the three fields are unchanged and convert is enabled |
| RecordAudio.Track.Stop | client/src/components/record/RecordAudio.jsx:91 | a stopped track is no longer live |
| RecordAudio.MediaRecorder.constructor | client/src/components/record/RecordAudio.jsx:55 | a new recorder is bound to the stream and inactive |
| RecordAudio.MediaRecorder.Start | client/src/components/record/RecordAudio.jsx:58 | the recorder records |
| RecordAudio.MediaRecorder.Stop | client/src/components/record/RecordAudio.jsx:90 | the recorder is inactive |
| RecordAudio.StopAllTracks | client/src/components/record/RecordAudio.jsx:91 | every track of the stream is stopped (loop invariant over the tracks handled so far) |
| RecordAudio.Recorder.constructor | client/src/components/record/RecordAudio.jsx:24-36 | not recording, no recorder, no stream, no audio, caption "Start Recording" |
| RecordAudio.Recorder.StartRecording | client/src/components/record/RecordAudio.jsx:41-50 | without media devices nothing changes; otherwise the caption becomes "Stop Recording", the recorded audio is dropped and one acquisition is pending; recording state, recorder and stream are unchanged |
| RecordAudio.Recorder.HandleAcquisition | client/src/components/record/RecordAudio.jsx:51-80 | granted: the stream is kept and exactly one new recorder over it is created and started, and isRecording holds; refused: nothing changes except one alert for NotAllowedError, and the caption is not restored |
| RecordAudio.Recorder.HandleDataAvailable | client/src/components/record/RecordAudio.jsx:61-69 | a new "audio/webm" blob URL is appended and becomes the recorded audio; earlier URLs stay |
| RecordAudio.Recorder.StopRecording | client/src/components/record/RecordAudio.jsx:86-93 | a no-op without a recorder; otherwise not recording, caption "Start Another Recording", the recorder inactive and every track stopped |
| RecordAudio.Recorder.ClickRecordButton | client/src/components/record/RecordAudio.jsx:118 | while recording the click stops (tracks released); otherwise it starts |
| RecordAudio.Recorder.RecordedAudioShown | client/src/components/record/RecordAudio.jsx:128-142 | the download button and the playback control exist iff there is recorded audio |
| RecordAudio.Recorder.HandleDownload | client/src/components/record/RecordAudio.jsx:98-103 | the link is the recorded audio's URL, its blob is webm, and the name is always "melody-mapper-recording.webm" |
| RecordAudio.PermissionDeniedScenario | client/src/components/record/RecordAudio.test.js:137-155 | after a refused request the caption is "Stop Recording", nothing records, and one alert was shown |
| RecordAudio.RecordAndStopScenario | client/src/components/record/RecordAudio.test.js:157-197 | start, grant, stop and then a chunk: the track is released, the caption offers another recording, and the recorded audio holds the chunk |
| PlaybackAudio.NextLabel | client/src/components/record/PlaybackAudio.jsx:26-37 | "Pause" exactly from "Play Recording" or "Resume", otherwise "Resume"; never "Play Recording" |
| PlaybackAudio.ClickTwice | client/src/components/record/PlaybackAudio.jsx:26-37 | two clicks from "Pause" or "Resume" return to the same label |
| PlaybackAudio.Playback.constructor | client/src/components/record/PlaybackAudio.jsx:21 | the label starts as "Play Recording" and the audio is paused |
| PlaybackAudio.Playback.HandlePlayPause | client/src/components/record/PlaybackAudio.jsx:26-37 | the label follows NextLabel; the audio plays exactly when it was not on "Pause"; the label stays one of the three and reads "Pause" exactly while playing |
| PlaybackAudio.Playback.HandleEnded | client/src/components/record/PlaybackAudio.jsx:32 | the end of playback resets the label to "Play Recording" |
| ConversionHistory.HeaderCriterion | client/src/components/conversion_history/ConversionHistory.jsx:283-294 | File sorts by title, Name by name, Email by date, Date by email |
| ConversionHistory.StrCompare | client/src/components/conversion_history/ConversionHistory.jsx:199-201 | the three-way comparison is −1, 0 or 1, and 0 exactly for equal strings |
| ConversionHistory.StrCompareAntisymmetric | client/src/components/conversion_history/ConversionHistory.jsx:197-213 | swapping the arguments negates the comparison |
| ConversionHistory.StrCompareTransitive | client/src/components/conversion_history/ConversionHistory.jsx:197-213 | the comparison is transitive |
| ConversionHistory.Compare | client/src/components/conversion_history/ConversionHistory.jsx:197-213 | the comparator is 0 exactly when the active field is equal |
| ConversionHistory.DescendingSwapsArguments | client/src/components/conversion_history/ConversionHistory.jsx:197-213 | for every criterion, descending is ascending with the arguments swapped, and also its negation |
| ConversionHistory.PrecedesTotal | client/src/components/conversion_history/ConversionHistory.jsx:197-213 | of any two entries, one may precede the other |
| ConversionHistory.PrecedesTransitive | client/src/components/conversion_history/ConversionHistory.jsx:197-213 | precedence is transitive in both directions |
| ConversionHistory.Insert | client/src/components/conversion_history/ConversionHistory.jsx:222 | inserting into a sorted list keeps it sorted and adds exactly the entry |
| ConversionHistory.Sort | client/src/components/conversion_history/ConversionHistory.jsx:222 | the sorted list is ordered by the active comparator and is a permutation of the input |
| ConversionHistory.DescendingIsReversedAscending | client/src/components/conversion_history/ConversionHistory.jsx:197-213 | a list is sorted descending iff its reverse is sorted ascending |
| ConversionHistory.LowerChar | client/src/components/conversion_history/ConversionHistory.jsx:225 | a capital letter becomes the corresponding small letter, every other character is unchanged, and no capital remains |
| ConversionHistory.Lower | client/src/components/conversion_history/ConversionHistory.jsx:225 | lower-casing keeps the length and maps each character |
| ConversionHistory.Includes | client/src/components/conversion_history/ConversionHistory.jsx:229-235 | includes holds iff the query occurs at some position |
| ConversionHistory.Filter | client/src/components/conversion_history/ConversionHistory.jsx:229-235 | exactly the matching entries are kept, each as often as before, and no more entries than the input |
| ConversionHistory.Matches | client/src/components/conversion_history/ConversionHistory.jsx:229-235 | an entry matches iff its lower-cased title, name or email, or its date as it is, contains the query |
| ConversionHistory.FilterKeepsSorted | client/src/components/conversion_history/ConversionHistory.jsx:229-235 | filtering keeps the order of the kept entries: a sorted list filters to a sorted list |
| ConversionHistory.EmptyQueryKeepsAll | client/src/components/conversion_history/ConversionHistory.jsx:229-235 | the empty query keeps the whole list |
| ConversionHistory.PageItems | client/src/components/conversion_history/ConversionHistory.jsx:238-240 | page p holds entries 10p up to min(10p + 10, n), never more than 10, and nothing past the end |
| ConversionHistory.PageKeepsSorted | client/src/components/conversion_history/ConversionHistory.jsx:238-240 | a page of a sorted list is sorted |
| ConversionHistory.PageCount | client/src/components/conversion_history/ConversionHistory.jsx:328 | the page count is ceil(n / 10) |
| ConversionHistory.PageOfIndex | client/src/components/conversion_history/ConversionHistory.jsx:238-240 | entry i appears on page i / 10 at row i mod 10, and that page is counted |
| ConversionHistory.ThirteenEntriesTwoPages | client/src/components/conversion_history/ConverstionHistory.test.js:102-110 | thirteen entries make two pages, of 10 and 3 rows |
| ConversionHistory.EmptyPagesAfterFilter | client/src/components/conversion_history/ConversionHistory.jsx:328 | pages counted from the unfiltered list beyond the filtered entries are empty |
| ConversionHistory.SortAfterClick | client/src/components/conversion_history/ConversionHistory.jsx:248-255 | the clicked criterion becomes active; the same criterion flips the direction, a new one starts ascending |
| ConversionHistory.ClickSameTwice | client/src/components/conversion_history/ConversionHistory.jsx:248-255 | two clicks on the active criterion restore the direction |
| ConversionHistory.Indicator | client/src/components/conversion_history/ConversionHistory.jsx:263-268 | " ▲" iff the column is active and ascending, " ▼" iff active and descending, empty iff inactive |
| ConversionHistory.HistoryView.constructor | client/src/components/conversion_history/ConversionHistory.jsx:116-122 | no entries, page 0, criterion title, ascending, empty query |
| ConversionHistory.HistoryView.HandleLoaded | client/src/components/conversion_history/ConversionHistory.jsx:124-143 | the fetched list replaces the entries and nothing else changes |
| ConversionHistory.HistoryView.HandleSort | client/src/components/conversion_history/ConversionHistory.jsx:248-255 | the sort state follows SortAfterClick and nothing else changes |
| ConversionHistory.HistoryView.ClickHeader | client/src/components/conversion_history/ConversionHistory.jsx:283-294 | a header click sorts by that header's criterion |
| ConversionHistory.HistoryView.HandleSearchChange | client/src/components/conversion_history/ConversionHistory.jsx:224-226 | the query becomes the lower-cased input |
| ConversionHistory.HistoryView.ChangePage | client/src/components/conversion_history/ConversionHistory.jsx:243-245 | the page becomes the selected one |
| ConversionHistory.HistoryView.Render | client/src/components/conversion_history/ConversionHistory.jsx:222-240 | the stored list is replaced by its sorted permutation; the rows are the current page of the filtered list and are in the active sort order; the page count is of the unfiltered list; each header gets the indicator of its criterion |

## Left out

- The Flask server apart from the codec: routes, controllers, SQLAlchemy models, the legacy database classes, the `wav_to_midi` and music21 converters, and the ISO date helper. They are HTTP, database and file plumbing around external libraries.
- The audio research code. It is floating-point signal processing.
- Browser APIs are events or parameters rather than code:
  - `fetch` and `response.json()` become the `FetchOutcome` parameter;
  - `getUserMedia` becomes `Acquisition`;
  - the MediaRecorder's chunk becomes the bytes passed to `HandleDataAvailable`;
  - `alert` is appended to a list;
  - `URL.createObjectURL` is an index into the list of blobs;
  - link clicks and DOM insertion are not modelled.
- ConvertFileModal.Resolve: the three callbacks of `handleConvert` run as one step. They are the status check (ConvertFileModal.jsx:61-75), the `json()` continuation (76-79) and the `.catch` (80-83). The source runs them as separate tasks, so two things it allows are not reachable in the model. One is the state after a 201 but before `json()` settles: success title and downloads are shown, no response is stored yet, and the dialog can already be dismissed or reset. The other is a later `json()` failure that sets `conversionError` on a dialog the user has already reset. `HandleResponse` inherits this.
- The file input's DOM value, reset by `handleClose` and `handleUploadAnotherFile`, and the file picker that `handleFileInputClick` opens.
- `downloadXml` is not part of this model. Only the payload and file name handed to it are.
- The history table's own downloads (`handleGetData`, `handleDownloadMIDI`, `handleDownloadXML` in ConversionHistory.jsx) and its debug sample data.
- Button captions, variants, CSS and the spinner.
- The "size" sort. It uses `parseFloat`, and no header reaches it.
- Base64.Decode: stricter than the decoders. Python's non-validating `b64decode` discards characters outside the alphabet, and `atob` accepts whitespace and missing padding. The model rejects both kinds of input. Anything the server encodes is decoded correctly.
- ConversionHistory.StrCompare: compares character codes lexicographically rather than by locale collation. Dates are compared as the server's `isoformat()` strings. That order is chronological, as date subtraction is, only when the strings share one layout. `isoformat()` omits zero microseconds, so the layouts can differ.
- ConversionHistory.Sort: states order and permutation. It does not state stability: `Array.prototype.sort` keeps entries with equal keys in their input order, and `Insert` does too, but no contract says so. The in-place reordering is a reassignment of the stored list.
- FileUpload.AbbreviatedFileName: counts and cuts characters (Unicode scalar values). The source's `length` and `substring` count UTF-16 code units, so names with characters outside the Basic Multilingual Plane give a different result. For example, with the limit 10, "😀😀😀😀😀😀.mp3" has a 12-unit base in JavaScript and is shortened, but the model keeps it whole. The same holds for the upload caption (`UploadButtonCaption`) and the convert caption in `FooterOf`.
- ConversionHistory.Lower: lower-cases ASCII letters only. `toLowerCase` covers all of Unicode.
- RecordAudio.Recorder.Valid: covers only the current stream. Two microphone requests that are both granted replace the first stream, and that stream's tracks stay live.
- The `onerror` logging of the recorder and all `console` output.

# zdownload download page, modelled in Dafny

zdownload is a desktop front end for the `yt-dlp` downloader. Its home page
has a URL field, a busy flag and a status text. The download button runs
a handler that does the following:

- writes the bundled `yt-dlp` and `ffmpeg` binaries into the temporary
  directory and makes them executable;
- picks an argument profile for the URL, either YouTube or any other site;
- builds the downloader's argument list from the saved settings;
- runs the downloader on a worker thread. Two reader threads forward every
  line of its standard output and standard error through a channel, and a
  final message follows once the process has exited;
- relays each received message, plus a newline, into the status text.

After a successful download the worker deletes both temporary tools. The
clear button empties the URL field and the status text.

The project is organised as follows:

- `text.dfy` (module `Text`): substring search as `str::contains` does it,
  and the status log, which is every message followed by a newline. It also
  splits the log back into lines.
- `db.dfy` (module `Db`): the settings record and its defaults.
- `command.dfy` (module `Command`): the tool paths, the URL classifier, and
  the argument list of both profiles together with the output template and
  the playlist switch.
- `channel.dfy` (module `Channel`): what the relay receives. The
  interleaving of the two streams is given as explicit race outcomes, and
  they are proved to produce exactly the interleavings of the two streams.
  The model also gives the final message and when it is sent.
- `home.dfy` (module `Home`): the page state as a class, `Session`. Its
  methods are the download handler, the relay loop and the clear handler.
  Provisioning failures are modelled as panics.

Two behaviours of the code are worth spelling out:

- An empty URL does not stop the handler: the empty-URL branch
  (src/page/home.rs:42-46) ends in `()` and does not return. The handler
  shows the "enter a valid link" message, clears the busy flag, and then
  goes on to launch the downloader with `""` as the URL.
- The settings are free strings compared with the exact literals `"best"`
  and `"no"`. Any other quality string selects the best mp4, and any other
  playlist string leaves the playlist switch out.

Several argument-list lemmas hold for a URL that is not itself an option
word (`Command.IsOperand`). The URL field only ever holds "" or a match of
the URL extractor (src/page/home.rs:211-228, 249-251). Every match contains
a `.` or a `/`, and no option word does. The muxer path ends in `p` and is
not an option word either (`Command.ToolPathIsOperand`).

## Model

| member | source | states |
|---|---|---|
| Text.ContainsIff | src/page/home.rs:97 | The recursive substring test holds exactly when the pattern occurs at some index of the string. |
| Text.Log | src/page/home.rs:183-186 | The status log of a batch of messages: each message followed by a newline. It is empty exactly for no messages, and otherwise ends in a newline. The relay loop is proved to produce it. |
| Text.LogAppend | src/page/home.rs:183-186 | Appending one batch of messages to the log and then another is the same as appending both at once. |
| Text.SplitLinesLog | src/page/home.rs:183-186 | When no message contains a newline, splitting the log at newlines gives back exactly the relayed messages, in order. |
| Command.TempPath | src/page/home.rs:49-50 | A tool path starts with the temporary directory and ends with the tool's file name. |
| Command.ToolPathsDistinct | src/page/home.rs:49-50 | The downloader and muxer paths differ in every temporary directory. |
| Db.Default | src/db.rs:12-21 | The settings used when none can be loaded: the platform download directory as download path, quality "normal" and the playlist setting "no". |
| Command.YouTubeIff | src/page/home.rs:97 | A URL takes the YouTube profile if and only if "youtube.com" or "youtu.be" occurs somewhere in it. |
| Command.BuildCommand | src/page/home.rs:94 | The program that is run is the provisioned downloader file, "yt-dlp-temp". |
| Command.BuildArgs | src/page/home.rs:97-135 | The downloader's arguments: the profile picked by the classifier, applied by `ProfileCommandArgs`, which joins the common part, the profile's own arguments, the output switch and the playlist switch. The URL comes first and the muxer path fifth, in a list of at least nine. The lemmas below give the rest of the list. |
| Command.WordCount | src/page/home.rs:99-135 | Each option word occurs as often as an independent table gives for the profile and the settings. "-o" occurs once. "--retries" occurs once for YouTube. "-f" occurs once for other sites, and "--merge-output-format" too when the quality is "best". "--no-playlist" occurs once when the playlist setting is "no". This holds for a URL that is not itself an option word, which no URL the field can hold is. |
| Command.ArgsShape | src/page/home.rs:99-135 | Both profiles start with the URL, "--newline", "--no-check-certificate", "--ffmpeg-location" and the muxer path. The list has 9 arguments, or 11 for the generic profile at "best", plus one with the playlist switch. The last argument is "--no-playlist" if and only if the setting is "no". |
| Command.YouTubeArgs | src/page/home.rs:99-112 | In the YouTube profile, "--retries" "10" follows the muxer path, "--retries" occurs once, and neither "-f" nor "--merge-output-format" occurs. This holds for a URL that is not itself an option word, which no URL the field can hold is. |
| Command.YouTubeProfile | src/page/home.rs:97-112 | Every URL that names a YouTube host gets the YouTube arguments above, whatever the temporary directory. |
| Command.GenericBestFormat | src/page/home.rs:120-126 | For other sites at quality "best": "-f", the mp4 preference chain, "--merge-output-format" and "mp4" follow the muxer path. "-f" and the merge option each occur once, and "--retries" does not occur. This holds for a URL that is not itself an option word, which no URL the field can hold is. |
| Command.GenericOtherFormat | src/page/home.rs:127 | For other sites at any other quality: "-f" "best[ext=mp4]" follows the muxer path, "-f" occurs once, and there is no merge option or retry count. This holds for a URL that is not itself an option word, which no URL the field can hold is. |
| Command.OutputPlacement | src/page/home.rs:106-107 | In either profile, "-o" occurs once. It and the template (download path + "/%(title)s.%(ext)s") come right before the optional playlist switch. The generic branch at lines 129-130 is the same. This holds for a URL that is not itself an option word, which no URL the field can hold is. |
| Command.OutputAt | src/page/home.rs:106-107 | For every URL, option word or not, "-o" and the template (download path + "/%(title)s.%(ext)s") are the two arguments just before the optional playlist switch. The generic branch at lines 129-130 is the same. |
| Command.PlaylistSwitch | src/page/home.rs:108-112 | "--no-playlist" occurs once if the playlist setting is exactly "no", and not at all otherwise. The generic branch at lines 131-135 is the same. This holds for a URL that is not itself an option word, which no URL the field can hold is. |
| Command.DefaultSettingsArgs | src/db.rs:12-21 | Under the default settings ("normal", "no"), a non-YouTube URL gets 10 arguments. Positions 5-6 hold "-f" "best[ext=mp4]" and the last is "--no-playlist". |
| Channel.Texts | src/page/home.rs:152-153 | A reader sends one message per read, in order: the line itself, or "" for a read error. The stderr reader at lines 160-161 does the same. |
| Channel.Merge | src/page/home.rs:150-163 | The channel order of the two readers' messages for given race outcomes. Every message of both readers is kept, so the length is the sum of theirs. |
| Channel.MergeIsInterleaving | src/page/home.rs:150-163 | Whatever the race outcomes, the channel carries an interleaving of the two readers' messages. |
| Channel.MergeIff | src/page/home.rs:150-163 | A sequence is an interleaving of the two streams if and only if some race outcomes produce it. |
| Channel.InterleavingKeepsAll | src/page/home.rs:150-163 | An interleaving loses nothing and duplicates nothing: equal length, and multiset union of the two streams. |
| Channel.FinalMessageIff | src/page/home.rs:171-177 | The final message is the success text if and only if the exit was successful. Otherwise it starts with the exit-status prefix. |
| Channel.FinalAfterAllLines | src/page/home.rs:165-177 | Once the process has an exit status, exactly one final message is sent. It comes after all lines of both streams, which arrive interleaved and complete. |
| Channel.Messages | src/page/home.rs:138-177 | Everything the relay receives: nothing when the process cannot start; otherwise one message per line of either stream, plus one final message when the process has an exit status. |
| Channel.MessagesSingleLines | src/page/home.rs:152-176 | When no line the downloader writes and no printed exit status holds a newline, no message the relay receives holds one. Line reading strips the terminator (lines 152 and 160). |
| Channel.NoFinalWithoutExit | src/page/home.rs:138-165 | A spawn failure sends nothing. A failed wait sends only the interleaved lines, with no final message. |
| Home.InitialStatus | src/page/home.rs:39-44 | The status before any message arrives: the "enter a valid link" text exactly for an empty URL, otherwise the start text. It holds no newline. |
| Home.Provisioned | src/page/home.rs:48-84 | The tool files that exist when provisioning stops are a subset of the two tool paths. No file exists only when creating the downloader file fails. A write that fails after creating its file leaves that file behind. The muxer file never exists without the downloader file, and after complete provisioning both exist. |
| Home.Session.Provision | src/page/home.rs:48-84 | Provisioning reports success exactly when no step fails. The set of existing files grows by exactly the files `Provisioned` gives for the failing step. |
| Home.ToolPathsCount | src/page/home.rs:49-50 | Provisioning creates two distinct files. |
| Home.Cleanup | src/page/home.rs:171-173 | The files left after the cleanup following a success: a subset of the earlier files holding no tool file, missing nothing but tool files. |
| Home.ProvisionCleanupRoundTrip | src/page/home.rs:171-173 | Provisioning followed by the cleanup after a success gives the same files as the cleanup alone. A tool file left behind by an earlier failed run is overwritten and then removed too. When neither tool file existed before, the files are exactly as before. |
| Home.EmptyUrlStillLaunches | src/page/home.rs:42-46 | An empty URL is classified as generic and is still passed as the first argument. |
| Home.StatusLines | src/page/home.rs:183-186 | Read line by line, the status text shows the initial status with the first message on the same line, then one line per later message. |
| Home.HandlerStatusLines | src/page/home.rs:181-186 | Applies to the status `Home.Session.DownloadVideo` leaves after a run. When the downloader writes no newline inside a line, that status reads line by line as the initial status followed by the first message, then one line per later message. |
| Home.Session.constructor | src/page/home.rs:16-18 | A fresh page has an empty URL and status and is not downloading. |
| Home.Session.Relay | src/page/home.rs:181-198 | The relay loop appends every received message and a newline to the status text, in channel order. |
| Home.Session.DownloadVideo | src/page/home.rs:38-201 | The handler panics exactly when a provisioning step fails, leaving the files written so far. Otherwise it runs the command built from the URL and settings, and the status becomes the initial status followed by the log of all messages. The busy flag ends cleared, and the tools are removed by `Cleanup` exactly when the download succeeded. This holds while no other handler runs during the relay (see "Left out"). The URL field is never changed. |
| Home.Session.HandleClear | src/page/home.rs:205-209 | Clearing empties the URL field and the status text. |

## Left out

- Processes, threads, the channel and the async relay are not executed. In the program the busy flag is cleared (src/page/home.rs:200) right after the worker (line 92) and the relay task (line 181) are spawned. Both buttons are disabled only by that flag (lines 256 and 307), and the relay yields for 500 ms after each message (line 196), so both buttons work while messages are still arriving. The model runs the relay to completion before the busy flag is cleared, so it does not capture handlers that interleave with a running download:
  - a clear during the relay (lines 207-208) empties the status, and later messages are appended to "";
  - a second download resets the status (lines 40 and 44) and rewrites the same fixed tool files (lines 49-62) while the first downloader may still be running. Either run's success cleanup (lines 172-173) can then delete files the other run is using.
- The order in which the two reader threads reach the channel is an input (`order`). The model proves that the inputs cover exactly the possible interleavings.
- The 500 ms pause and the JavaScript scroll call after each relayed message only affect timing and display.
- File writes, permission changes and removals are modelled as a set of existing tool files. The binary contents and the 0o755 mode are not modelled. The model assumes both removals after a success succeed. A failed removal, which the program ignores (`let _ =`, src/page/home.rs:172-173), would leave that file behind.
- `Path::join` is modelled for a relative file name joined onto a directory string. Platform path forms are not modelled.
- The Windows-only block, which chooses `.exe` names, is not modelled: the model follows the non-Windows build.
- Home.Session.DownloadVideo: its final status (the initial status followed by the log of all messages) and its file set (tools removed exactly on success) hold only if no other handler runs before the relay receives its last message. The page is also assumed to stay mounted until the worker is done. The relay is a task owned by the home page (src/page/home.rs:181). Opening the settings page replaces the home page (src/page.rs:104-107) and drops that task together with the receiving end of the channel. After that, a reader's `send(...).unwrap()` (lines 153 and 161) panics, and so does the worker's `join().unwrap()` (lines 168-169). The final message and the cleanup after success (lines 171-174) may then never happen. So "tools removed exactly on success" and "the status holds every message" hold only while the page stays mounted. These panics are not modelled.
- Command.BuildCommand: its contract names only the program. The argument list is described by the Command lemmas listed above.
- The URL extractor, the instructions list and the page layout are UI code outside this model, and so are the settings page, page routing and the application entry point.
- Loading and saving the settings file is file I/O. Only the record and its defaults are modelled, with the platform download directory as a parameter.

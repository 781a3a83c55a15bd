/** The home page's download session: the URL field, the busy flag and the
    status text, the download handler that provisions the tools, builds the
    downloader command, relays everything the worker sends into the status
    text and cleans up after a successful download, and the clear handler. */
module Home {
  import opened Text
  import opened Db
  import opened Command
  import opened Channel

  const StartMessage: string := "开始下载..."
  const EmptyUrlMessage: string := "请输入有效的视频链接"

  /** The first provisioning step that fails, if any. Writing a tool binary
      first creates the file and then fills it, so it can fail before the
      file exists or after; making either tool executable can fail too.
      Each failure panics. */
  datatype ProvisionFault = NoFault
                          | CreateDownloaderFailed | WriteDownloaderFailed
                          | CreateMuxerFailed | WriteMuxerFailed
                          | ChmodDownloaderFailed | ChmodMuxerFailed

  /** How the download handler ends: by a panic during provisioning, or by
      returning after launching the worker with `command`, which sent `sent`. */
  datatype HandlerResult = Panicked(fault: ProvisionFault) | Returned(command: Invocation, sent: seq<string>)

  /** The status text in place before any message arrives. */
  function InitialStatus(url: string): (r: string)
    ensures '\n' !in r
    ensures r == EmptyUrlMessage <==> url == ""
  {
    if url == "" then EmptyUrlMessage else StartMessage
  }

  /** The two temporary tool files. */
  function ToolPaths(tempDir: string): set<string>
  {
    {TempPath(tempDir, DownloaderFile), TempPath(tempDir, MuxerFile)}
  }

  /** The tool files that exist once provisioning stops at `fault`. */
  function Provisioned(tempDir: string, fault: ProvisionFault): (files: set<string>)
    ensures files <= ToolPaths(tempDir)
    ensures fault.NoFault? ==> files == ToolPaths(tempDir)
    ensures files == {} <==> fault.CreateDownloaderFailed?
    ensures TempPath(tempDir, MuxerFile) in files ==> TempPath(tempDir, DownloaderFile) in files
  {
    match fault
    case CreateDownloaderFailed => {}
    case WriteDownloaderFailed => {TempPath(tempDir, DownloaderFile)}
    case CreateMuxerFailed => {TempPath(tempDir, DownloaderFile)}
    case _ => ToolPaths(tempDir)
  }

  /** Provisioning writes two distinct files. */
  lemma ToolPathsCount(tempDir: string)
    ensures |ToolPaths(tempDir)| == 2
  {
    ToolPathsDistinct(tempDir);
  }

  /** The files left after the worker removes both tool files following a
      successful download: every other file stays, no tool file remains. */
  function Cleanup(files: set<string>, tempDir: string): (r: set<string>)
    ensures r <= files && r !! ToolPaths(tempDir)
    ensures files - r <= ToolPaths(tempDir)
  {
    files - ToolPaths(tempDir)
  }

  /** Provisioning followed by the cleanup after a success is the cleanup
      alone: a tool file left behind by an earlier failed run is overwritten
      and removed too. When neither tool file existed before, the files are
      exactly as before. */
  lemma ProvisionCleanupRoundTrip(files: set<string>, tempDir: string)
    ensures Cleanup(files + Provisioned(tempDir, NoFault), tempDir) == Cleanup(files, tempDir)
    ensures files !! ToolPaths(tempDir) ==> Cleanup(files + Provisioned(tempDir, NoFault), tempDir) == files
  {
  }

  /** An empty URL is still handed to the downloader: the generic profile
      with "" as its first argument. */
  lemma EmptyUrlStillLaunches(s: Settings, tempDir: string)
    ensures Classify("") == Generic
    ensures BuildCommand("", s, tempDir).args[0] == ""
  {
    assert !StartsWith("", "youtube.com") && !StartsWith("", "youtu.be");
  }

  /** The status text shown line by line: the first message shares a line
      with the initial status, every later message has a line of its own. */
  lemma {:induction false} StatusLines(url: string, sent: seq<string>)
    requires SingleLines(sent)
    ensures SplitLines(InitialStatus(url) + Log(sent))
            == if sent == [] then [InitialStatus(url)] else [InitialStatus(url) + sent[0]] + sent[1..]
  {
    var init := InitialStatus(url);
    assert '\n' !in init;
    if sent == [] {
      assert init + Log(sent) == init;
    } else {
      var joined := [init + sent[0]] + sent[1..];
      assert joined[0] == init + sent[0] && joined[1..] == sent[1..];
      assert init + Log(sent) == Log(joined);
      forall k | 0 <= k < |joined| ensures '\n' !in joined[k] {
        if k > 0 {
          assert joined[k] == sent[k];
        }
      }
      SplitLinesLog(joined);
    }
  }

  /** The status text the handler leaves after a completed run, read line by
      line: the initial status and the first message share the first line,
      every later message of the channel has a line of its own. */
  lemma HandlerStatusLines(url: string, run: ProcessRun, order: seq<bool>)
    requires NoNewlines(run)
    ensures var sent := Messages(run, order);
            SplitLines(InitialStatus(url) + Log(sent))
            == if sent == [] then [InitialStatus(url)] else [InitialStatus(url) + sent[0]] + sent[1..]
  {
    MessagesSingleLines(run, order);
    StatusLines(url, Messages(run, order));
  }

  /** The page's session state. `tempFiles` tracks which temporary tool
      files exist on disk. */
  class Session {
    var videoText: string
    var isDownloading: bool
    var downloadStatus: string
    ghost var tempFiles: set<string>

    /** A fresh page: empty URL and status, not downloading; `onDisk` are
        tool files left behind by earlier runs. */
    constructor (ghost onDisk: set<string>)
      ensures videoText == "" && !isDownloading && downloadStatus == "" && tempFiles == onDisk
    {
      videoText := "";
      isDownloading := false;
      downloadStatus := "";
      tempFiles := onDisk;
    }

    /** The relay task: appends every message it receives, and a newline,
        to the status text, in channel order. */
    method Relay(sent: seq<string>)
      modifies this`downloadStatus
      ensures downloadStatus == old(downloadStatus) + Log(sent)
    {
      var i := 0;
      while i < |sent|
        invariant 0 <= i <= |sent|
        invariant downloadStatus == old(downloadStatus) + Log(sent[..i])
      {
        LogSnoc(sent[..i], sent[i]);
        assert sent[..i + 1] == sent[..i] + [sent[i]];
        downloadStatus := downloadStatus + sent[i] + "\n";
        i := i + 1;
      }
      assert sent[..i] == sent;
    }

    /** Writes both tool binaries into `tempDir` and makes them executable,
        stopping at the first step that fails; reports whether all succeeded. */
    method Provision(tempDir: string, fault: ProvisionFault) returns (ok: bool)
      modifies this`tempFiles
      ensures ok <==> fault.NoFault?
      ensures tempFiles == old(tempFiles) + Provisioned(tempDir, fault)
    {
      var downloader := TempPath(tempDir, DownloaderFile);
      var muxer := TempPath(tempDir, MuxerFile);
      if fault == CreateDownloaderFailed {
        return false;
      }
      tempFiles := tempFiles + {downloader};
      if fault == WriteDownloaderFailed || fault == CreateMuxerFailed {
        return false;
      }
      tempFiles := tempFiles + {muxer};
      if fault == WriteMuxerFailed || fault == ChmodDownloaderFailed || fault == ChmodMuxerFailed {
        return false;
      }
      return true;
    }

    /** The download handler. The settings, the temporary directory, the
        provisioning outcome, what the downloader does and the order in which
        its two streams reach the channel are all inputs. An empty URL only
        changes the status message; the download still goes ahead. */
    method DownloadVideo(settings: Settings, tempDir: string, fault: ProvisionFault,
                         run: ProcessRun, order: seq<bool>) returns (r: HandlerResult)
      modifies this
      ensures videoText == old(videoText)
      ensures r.Panicked? <==> !fault.NoFault?
      ensures r.Panicked? ==> r.fault == fault
                              && isDownloading == (old(videoText) != "")
                              && downloadStatus == InitialStatus(old(videoText))
                              && tempFiles == old(tempFiles) + Provisioned(tempDir, fault)
      ensures r.Returned? ==> r.command == BuildCommand(old(videoText), settings, tempDir)
                              && r.sent == Messages(run, order)
                              && !isDownloading
                              && downloadStatus == InitialStatus(old(videoText)) + Log(r.sent)
                              && tempFiles == if Succeeded(run) then Cleanup(old(tempFiles) + ToolPaths(tempDir), tempDir)
                                              else old(tempFiles) + ToolPaths(tempDir)
    {
      isDownloading := true;
      downloadStatus := StartMessage;
      var url := videoText;
      if url == "" {
        isDownloading := false;
        downloadStatus := EmptyUrlMessage;
      }
      assert downloadStatus == InitialStatus(url) && isDownloading == (url != "");

      var provisioned := Provision(tempDir, fault);
      if !provisioned {
        return Panicked(fault);
      }
      var downloader := TempPath(tempDir, DownloaderFile);
      var muxer := TempPath(tempDir, MuxerFile);

      r := Returned(BuildCommand(url, settings, tempDir), Messages(run, order));
      assert r.command == BuildCommand(old(videoText), settings, tempDir);
      var sent := r.sent;
      if Succeeded(run) {
        tempFiles := tempFiles - {downloader, muxer};
        assert tempFiles == Cleanup(old(tempFiles) + ToolPaths(tempDir), tempDir);
      }
      Relay(sent);
      isDownloading := false;
    }

    /** The clear handler: empties the URL field and the status text. */
    method HandleClear()
      modifies this`videoText, this`downloadStatus
      ensures videoText == "" && downloadStatus == ""
    {
      videoText := "";
      downloadStatus := "";
    }
  }
}

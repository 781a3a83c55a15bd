/** The argument list handed to the downloader: URL classification, the
    YouTube and generic profiles, the output template and the playlist
    switch, and the temporary paths of the two provisioned tools. */
module Command {
  import opened Text
  import opened Db

  const DownloaderFile: string := "yt-dlp-temp"
  const MuxerFile: string := "ffmpeg-temp"
  const TemplateSuffix: string := "/%(title)s.%(ext)s"
  const BestFormat: string := "bestvideo[ext=mp4]+bestaudio[ext=m4a]/best[ext=mp4]/best"

  /** A program and its ordered arguments. */
  datatype Invocation = Invocation(program: string, args: seq<string>)

  /** Joining a relative file name onto a directory path: no separator is
      added after an empty directory or one that already ends in '/'. */
  function TempPath(dir: string, name: string): (p: string)
    ensures EndsWith(p, name)
    ensures StartsWith(p, dir)
  {
    if dir == [] then name
    else if dir[|dir| - 1] == '/' then dir + name
    else dir + "/" + name
  }

  /** The downloader and muxer land on two different paths in any directory. */
  lemma ToolPathsDistinct(dir: string)
    ensures TempPath(dir, DownloaderFile) != TempPath(dir, MuxerFile)
  {
    var d, m := TempPath(dir, DownloaderFile), TempPath(dir, MuxerFile);
    assert |d| == |m|;
    assert d[|d| - 11..][0] == 'y' && m[|m| - 11..][0] == 'f';
  }

  /** Where the downloader writes each file, relative to the download
      directory; the title and extension placeholders are expanded by the
      downloader itself. */
  function OutputTemplate(downloadPath: string): string
  {
    downloadPath + TemplateSuffix
  }

  /** A URL takes the YouTube profile when it mentions either YouTube host. */
  predicate IsYouTube(url: string)
  {
    Contains(url, "youtube.com") || Contains(url, "youtu.be")
  }

  /** The classification in terms of where a host name occurs. */
  lemma YouTubeIff(url: string)
    ensures IsYouTube(url) <==>
              (exists i :: OccursAt(url, "youtube.com", i)) || (exists i :: OccursAt(url, "youtu.be", i))
  {
    ContainsIff(url, "youtube.com");
    ContainsIff(url, "youtu.be");
  }

  /** Format selection of the generic profile: the preference chain with an
      mp4 merge for exactly "best", the best mp4 for any other string. */
  function FormatArgs(quality: string): seq<string>
  {
    if quality == "best" then ["-f", BestFormat, "--merge-output-format", "mp4"]
    else ["-f", "best[ext=mp4]"]
  }

  /** The two argument profiles. */
  datatype Profile = YouTube | Generic

  /** The profile a URL takes. */
  function Classify(url: string): Profile
  {
    if IsYouTube(url) then YouTube else Generic
  }

  /** The arguments that differ between the profiles: a retry count for
      YouTube, a format selection for every other site. */
  function ProfileArgs(p: Profile, quality: string): seq<string>
  {
    match p
    case YouTube => ["--retries", "10"]
    case Generic => FormatArgs(quality)
  }

  /** The playlist switch: present for exactly "no", absent otherwise. */
  function PlaylistArgs(downVideoList: string): seq<string>
  {
    if downVideoList == "no" then ["--no-playlist"] else []
  }

  /** The arguments both profiles open with. */
  function CommonArgs(url: string, muxerPath: string): seq<string>
  {
    [url, "--newline", "--no-check-certificate", "--ffmpeg-location", muxerPath]
  }

  /** The output template switch. */
  function OutputArgs(downloadPath: string): seq<string>
  {
    ["-o", OutputTemplate(downloadPath)]
  }

  /** The arguments of profile `p` for `url` under `s`, with the muxer found
      at `muxerPath`. */
  function ProfileCommandArgs(p: Profile, url: string, s: Settings, muxerPath: string): seq<string>
  {
    CommonArgs(url, muxerPath) + ProfileArgs(p, s.quality) + OutputArgs(s.downloadPath)
    + PlaylistArgs(s.downVideoList)
  }

  /** The arguments passed to the downloader for `url` under `s`. */
  function BuildArgs(url: string, s: Settings, muxerPath: string): (r: seq<string>)
    ensures |r| >= 9 && r[0] == url && r[4] == muxerPath
  {
    ArgsShape(Classify(url), url, s, muxerPath);
    ProfileCommandArgs(Classify(url), url, s, muxerPath)
  }

  /** The full command: the provisioned downloader run on the built arguments. */
  function BuildCommand(url: string, s: Settings, tempDir: string): (c: Invocation)
    ensures EndsWith(c.program, DownloaderFile)
  {
    Invocation(TempPath(tempDir, DownloaderFile), BuildArgs(url, s, TempPath(tempDir, MuxerFile)))
  }

  /** An argument that is none of the option words the builder emits (every
      other argument it emits is the URL or the value of an option). */
  predicate IsOperand(x: string)
  {
    && x != "--newline" && x != "--no-check-certificate" && x != "--ffmpeg-location"
    && x != "--retries" && x != "-o" && x != "-f" && x != "--merge-output-format"
    && x != "--no-playlist"
  }

  /** A YouTube URL holds both a 'y' and a 'u'. */
  lemma YouTubeUrlChars(url: string)
    requires IsYouTube(url)
    ensures 'y' in url && 'u' in url
  {
    if Contains(url, "youtube.com") {
      ContainsChars(url, "youtube.com", 0);
      ContainsChars(url, "youtube.com", 2);
    } else {
      ContainsChars(url, "youtu.be", 0);
      ContainsChars(url, "youtu.be", 2);
    }
  }

  /** No option word holds both a 'y' and a 'u'. */
  lemma OperandByChars(x: string)
    requires 'y' in x && 'u' in x
    ensures IsOperand(x)
  {
    assert 'y' !in "--newline" && 'y' !in "--no-check-certificate" && 'y' !in "--ffmpeg-location";
    assert 'y' !in "--retries" && 'y' !in "--merge-output-format" && 'u' !in "--no-playlist";
  }

  /** A YouTube URL cannot be mistaken for an option word. */
  lemma YouTubeUrlIsOperand(url: string)
    requires IsYouTube(url)
    ensures IsOperand(url)
  {
    YouTubeUrlChars(url);
    OperandByChars(url);
  }

  /** A provisioned tool path ends in 'p' and so is no option word. */
  lemma ToolPathIsOperand(dir: string, name: string)
    requires name == DownloaderFile || name == MuxerFile
    ensures IsOperand(TempPath(dir, name))
  {
    var p := TempPath(dir, name);
    assert p[|p| - 1] == p[|p| - |name|..][|name| - 1] == 'p';
  }

  /** The output template holds a '%' and so is no option word. */
  lemma TemplateIsOperand(downloadPath: string)
    ensures IsOperand(OutputTemplate(downloadPath))
  {
    var t := OutputTemplate(downloadPath);
    assert t[|downloadPath| + 1] == '%';
  }

  /** The option words whose occurrences are counted. */
  predicate Counted(w: string)
  {
    w == "-f" || w == "-o" || w == "--retries" || w == "--merge-output-format" || w == "--no-playlist"
  }

  /** Proof helper, not a property of the program: the five counted option
      words are pairwise different. Stated once so that the lemmas below do
      not each compare string literals character by character. */
  lemma CountedDistinct()
    ensures "-f" != "-o" && "-f" != "--retries" && "-f" != "--merge-output-format" && "-f" != "--no-playlist"
    ensures "-o" != "--retries" && "-o" != "--merge-output-format" && "-o" != "--no-playlist"
    ensures "--retries" != "--merge-output-format" && "--retries" != "--no-playlist"
    ensures "--merge-output-format" != "--no-playlist"
  {
  }

  /** How often each counted option word occurs, by profile and settings:
      "-o" always once; "--retries" once for YouTube; "-f" once for every
      other site, "--merge-output-format" too when the quality is exactly
      "best"; "--no-playlist" once when the playlist setting is exactly "no". */
  function ExpectedCount(p: Profile, s: Settings, w: string): nat
  {
    if w == "-o" then 1
    else if w == "--retries" then (if p == YouTube then 1 else 0)
    else if w == "-f" then (if p == Generic then 1 else 0)
    else if w == "--merge-output-format" then (if p == Generic && s.quality == "best" then 1 else 0)
    else if w == "--no-playlist" then (if s.downVideoList == "no" then 1 else 0)
    else 0
  }

  /** Occurrences of the counted words in the YouTube profile's arguments. */
  lemma RetryWords(w: string)
    requires Counted(w)
    ensures multiset(["--retries", "10"])[w] == if w == "--retries" then 1 else 0
  {
  }

  /** Occurrences of the counted words in the "best" format selection. */
  lemma BestWords(w: string)
    requires Counted(w)
    ensures multiset(["-f", BestFormat, "--merge-output-format", "mp4"])[w]
            == if w == "-f" || w == "--merge-output-format" then 1 else 0
  {
  }

  /** Occurrences of the counted words in any other format selection. */
  lemma OtherWords(w: string)
    requires Counted(w)
    ensures multiset(["-f", "best[ext=mp4]"])[w] == if w == "-f" then 1 else 0
  {
  }

  /** Proof helper, not a property of the program: `ExpectedCount` evaluated
      at each counted word, so that callers need not unfold it themselves. */
  lemma ExpectedTable(p: Profile, s: Settings)
    ensures ExpectedCount(p, s, "-o") == 1
    ensures ExpectedCount(p, s, "--retries") == if p == YouTube then 1 else 0
    ensures ExpectedCount(p, s, "-f") == if p == Generic then 1 else 0
    ensures ExpectedCount(p, s, "--merge-output-format") == if p == Generic && s.quality == "best" then 1 else 0
    ensures ExpectedCount(p, s, "--no-playlist") == if s.downVideoList == "no" then 1 else 0
  {
    CountedDistinct();
  }

  lemma CommonCount(url: string, muxerPath: string, w: string)
    requires Counted(w) && IsOperand(url) && IsOperand(muxerPath)
    ensures multiset(CommonArgs(url, muxerPath))[w] == 0
  {
  }

  lemma ProfileCount(p: Profile, s: Settings, w: string)
    requires Counted(w)
    ensures multiset(ProfileArgs(p, s.quality))[w]
            == if p == YouTube then (if w == "--retries" then 1 else 0)
               else if w == "-f" then 1
               else if w == "--merge-output-format" && s.quality == "best" then 1
               else 0
  {
    if p == YouTube {
      RetryWords(w);
    } else if s.quality == "best" {
      BestWords(w);
    } else {
      OtherWords(w);
    }
  }

  lemma OutputCount(downloadPath: string, w: string)
    requires Counted(w)
    ensures multiset(OutputArgs(downloadPath))[w] == if w == "-o" then 1 else 0
  {
    TemplateIsOperand(downloadPath);
  }

  /** Every counted option word occurs exactly as often as the table says,
      provided the URL and the muxer path are not option words themselves. */
  lemma WordCount(p: Profile, url: string, s: Settings, muxerPath: string, w: string)
    requires Counted(w) && IsOperand(url) && IsOperand(muxerPath)
    ensures multiset(ProfileCommandArgs(p, url, s, muxerPath))[w] == ExpectedCount(p, s, w)
  {
    var c, m, o, l := CommonArgs(url, muxerPath), ProfileArgs(p, s.quality), OutputArgs(s.downloadPath),
                      PlaylistArgs(s.downVideoList);
    assert multiset(c + m + o + l) == multiset(c) + multiset(m) + multiset(o) + multiset(l);
    CountedDistinct();
    CommonCount(url, muxerPath, w);
    ProfileCount(p, s, w);
    OutputCount(s.downloadPath, w);
  }

  /** Both profiles open with the URL, the line-per-update switch, the
      certificate switch and the muxer location, in that order; YouTube and
      the generic profile below "best" have nine arguments, the generic
      profile at "best" eleven, one more each with the playlist switch,
      which is the last argument exactly when the setting is "no". */
  lemma ArgsShape(p: Profile, url: string, s: Settings, muxerPath: string)
    ensures var a := ProfileCommandArgs(p, url, s, muxerPath);
            && |a| == (if p == YouTube || s.quality != "best" then 9 else 11)
                      + (if s.downVideoList == "no" then 1 else 0)
            && a[0] == url && a[1] == "--newline" && a[2] == "--no-check-certificate"
            && a[3] == "--ffmpeg-location" && a[4] == muxerPath
            && (a[|a| - 1] == "--no-playlist" <==> s.downVideoList == "no")
  {
    var a := ProfileCommandArgs(p, url, s, muxerPath);
    if s.downVideoList != "no" {
      TemplateIsOperand(s.downloadPath);
      assert a[|a| - 1] == OutputTemplate(s.downloadPath);
    }
  }

  /** The YouTube profile retries ten times, says so once, and has neither a
      format selection nor a merge container. */
  lemma YouTubeArgs(url: string, s: Settings, muxerPath: string)
    requires IsOperand(url) && IsOperand(muxerPath)
    ensures var a := ProfileCommandArgs(YouTube, url, s, muxerPath);
            && a[5] == "--retries" && a[6] == "10" && multiset(a)["--retries"] == 1
            && "-f" !in a && "--merge-output-format" !in a
  {
    ExpectedTable(YouTube, s);
    WordCount(YouTube, url, s, muxerPath, "--retries");
    WordCount(YouTube, url, s, muxerPath, "-f");
    WordCount(YouTube, url, s, muxerPath, "--merge-output-format");
    RetriesAt(url, s, muxerPath);
  }

  /** Where the retry count sits. */
  lemma RetriesAt(url: string, s: Settings, muxerPath: string)
    ensures var a := ProfileCommandArgs(YouTube, url, s, muxerPath);
            a[5] == "--retries" && a[6] == "10"
  {
    ProfileArgAt(YouTube, url, s, muxerPath, 0);
    ProfileArgAt(YouTube, url, s, muxerPath, 1);
  }

  /** A URL naming either YouTube host gets the YouTube profile, whatever
      the temporary directory the muxer was written to. */
  lemma YouTubeProfile(url: string, s: Settings, tempDir: string)
    requires IsYouTube(url)
    ensures var a := BuildArgs(url, s, TempPath(tempDir, MuxerFile));
            && a[5] == "--retries" && a[6] == "10" && multiset(a)["--retries"] == 1
            && "-f" !in a && "--merge-output-format" !in a
  {
    YouTubeUrlIsOperand(url);
    ToolPathIsOperand(tempDir, MuxerFile);
    YouTubeArgs(url, s, TempPath(tempDir, MuxerFile));
  }

  /** The profile's own arguments sit right after the five common ones. */
  lemma ProfileArgAt(p: Profile, url: string, s: Settings, muxerPath: string, i: nat)
    requires i < |ProfileArgs(p, s.quality)|
    ensures ProfileCommandArgs(p, url, s, muxerPath)[5 + i] == ProfileArgs(p, s.quality)[i]
  {
  }

  /** Where the "best" format selection sits. */
  lemma BestFormatAt(url: string, s: Settings, muxerPath: string)
    requires s.quality == "best"
    ensures var a := ProfileCommandArgs(Generic, url, s, muxerPath);
            && a[5] == "-f" && a[6] == BestFormat && a[7] == "--merge-output-format" && a[8] == "mp4"
  {
    ProfileArgAt(Generic, url, s, muxerPath, 0);
    ProfileArgAt(Generic, url, s, muxerPath, 1);
    ProfileArgAt(Generic, url, s, muxerPath, 2);
    ProfileArgAt(Generic, url, s, muxerPath, 3);
  }

  /** The generic profile with quality "best" selects the preference chain
      and an mp4 merge container, each once, and no retry count. */
  lemma GenericBestFormat(url: string, s: Settings, muxerPath: string)
    requires s.quality == "best"
    requires IsOperand(url) && IsOperand(muxerPath)
    ensures var a := ProfileCommandArgs(Generic, url, s, muxerPath);
            && a[5] == "-f" && a[6] == BestFormat && a[7] == "--merge-output-format" && a[8] == "mp4"
            && multiset(a)["-f"] == 1 && multiset(a)["--merge-output-format"] == 1
            && "--retries" !in a
  {
    ExpectedTable(Generic, s);
    WordCount(Generic, url, s, muxerPath, "-f");
    WordCount(Generic, url, s, muxerPath, "--merge-output-format");
    WordCount(Generic, url, s, muxerPath, "--retries");
    BestFormatAt(url, s, muxerPath);
  }

  /** The generic profile with any quality other than "best" selects only
      the best mp4, once, with no merge container and no retry count. */
  lemma GenericOtherFormat(url: string, s: Settings, muxerPath: string)
    requires s.quality != "best"
    requires IsOperand(url) && IsOperand(muxerPath)
    ensures var a := ProfileCommandArgs(Generic, url, s, muxerPath);
            && a[5] == "-f" && a[6] == "best[ext=mp4]"
            && multiset(a)["-f"] == 1 && "--merge-output-format" !in a && "--retries" !in a
  {
    ExpectedTable(Generic, s);
    WordCount(Generic, url, s, muxerPath, "-f");
    WordCount(Generic, url, s, muxerPath, "--merge-output-format");
    WordCount(Generic, url, s, muxerPath, "--retries");
    OtherFormatAt(url, s, muxerPath);
  }

  /** Where any other format selection sits. */
  lemma OtherFormatAt(url: string, s: Settings, muxerPath: string)
    requires s.quality != "best"
    ensures var a := ProfileCommandArgs(Generic, url, s, muxerPath);
            a[5] == "-f" && a[6] == "best[ext=mp4]"
  {
    ProfileArgAt(Generic, url, s, muxerPath, 0);
    ProfileArgAt(Generic, url, s, muxerPath, 1);
  }

  /** In either profile the output template follows the only "-o", just
      before the playlist switch (or at the very end without it). */
  lemma OutputPlacement(p: Profile, url: string, s: Settings, muxerPath: string)
    requires IsOperand(url) && IsOperand(muxerPath)
    ensures var a := ProfileCommandArgs(p, url, s, muxerPath);
            var k := |a| - |PlaylistArgs(s.downVideoList)| - 2;
            0 <= k && a[k] == "-o" && a[k + 1] == s.downloadPath + "/%(title)s.%(ext)s"
            && multiset(a)["-o"] == 1
  {
    ExpectedTable(p, s);
    WordCount(p, url, s, muxerPath, "-o");
    OutputAt(p, url, s, muxerPath);
  }

  /** For every URL, option word or not, the output switch and the template
      sit just before the optional playlist switch. */
  lemma OutputAt(p: Profile, url: string, s: Settings, muxerPath: string)
    ensures var a := ProfileCommandArgs(p, url, s, muxerPath);
            var k := |a| - |PlaylistArgs(s.downVideoList)| - 2;
            0 <= k && a[k] == "-o" && a[k + 1] == s.downloadPath + "/%(title)s.%(ext)s"
  {
    var head := CommonArgs(url, muxerPath) + ProfileArgs(p, s.quality);
    var a := ProfileCommandArgs(p, url, s, muxerPath);
    assert a[|head|] == "-o" && a[|head| + 1] == OutputTemplate(s.downloadPath);
  }

  /** In either profile "--no-playlist" appears once, as the last argument,
      exactly when the setting is the string "no", and is absent for any
      other string. */
  lemma PlaylistSwitch(p: Profile, url: string, s: Settings, muxerPath: string)
    requires IsOperand(url) && IsOperand(muxerPath)
    ensures var a := ProfileCommandArgs(p, url, s, muxerPath);
            multiset(a)["--no-playlist"] == (if s.downVideoList == "no" then 1 else 0)
  {
    ExpectedTable(p, s);
    WordCount(p, url, s, muxerPath, "--no-playlist");
  }

  /** With the default settings a non-YouTube URL gets the best-mp4 selector
      and the playlist switch: ten arguments ending in "--no-playlist". */
  lemma DefaultSettingsArgs(url: string, downloadDir: string, muxerPath: string)
    requires !IsYouTube(url)
    ensures var a := BuildArgs(url, Default(downloadDir), muxerPath);
            |a| == 10 && a[5] == "-f" && a[6] == "best[ext=mp4]" && a[9] == "--no-playlist"
  {
  }
}

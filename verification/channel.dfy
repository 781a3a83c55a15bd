/** What the download worker sends to the status relay: the two output
    streams of the downloader merged in some order, then one final message
    once both readers are done and the process has been waited for. */
module Channel {
  import opened Text

  /** One read from an output stream: a line, or a read error that the
      reader turns into an empty line. */
  datatype LineRead = Line(text: string) | ReadError

  /** The result of waiting for the downloader process; `status` is its
      exit status as printed. */
  datatype WaitResult = WaitFailed | Exited(success: bool, status: string)

  /** What happened to the downloader process: it could not be started, or
      it ran, wrote these reads on its two streams and was waited for. */
  datatype ProcessRun = SpawnFailed | Ran(stdout: seq<LineRead>, stderr: seq<LineRead>, exit: WaitResult)

  const DoneMessage: string := "下载完成"
  const ExitPrefix: string := "线程退出状态："

  /** The text each reader sends for its reads, in order. */
  function Texts(got: seq<LineRead>): (r: seq<string>)
    ensures |r| == |got|
    ensures forall i :: 0 <= i < |got| ==> r[i] == (if got[i].Line? then got[i].text else "")
  {
    if got == [] then []
    else [if got[0].Line? then got[0].text else ""] + Texts(got[1..])
  }

  /** `m` is `a` and `b` shuffled together, each keeping its own order. */
  ghost predicate Interleaving(m: seq<string>, a: seq<string>, b: seq<string>)
    decreases |m|
  {
    if m == [] then a == [] && b == []
    else
      || (a != [] && m[0] == a[0] && Interleaving(m[1..], a[1..], b))
      || (b != [] && m[0] == b[0] && Interleaving(m[1..], a, b[1..]))
  }

  /** The channel order of the two readers' sends: `order` says which reader
      wins each race while both still have lines; once one is done, the
      other's remaining lines follow (as they do once `order` runs out). */
  function Merge(order: seq<bool>, a: seq<string>, b: seq<string>): (r: seq<string>)
    ensures |r| == |a| + |b|
    decreases |a| + |b|
  {
    if a == [] then b
    else if b == [] then a
    else if order == [] then a + b
    else if order[0] then [a[0]] + Merge(order[1..], a[1..], b)
    else [b[0]] + Merge(order[1..], a, b[1..])
  }

  /** A sequence with nothing from the other side interleaves trivially. */
  lemma {:induction false} InterleavingRight(b: seq<string>)
    ensures Interleaving(b, [], b)
    decreases |b|
  {
    if b != [] {
      InterleavingRight(b[1..]);
    }
  }

  /** One stream after the other is an interleaving. */
  lemma {:induction false} InterleavingConcat(a: seq<string>, b: seq<string>)
    ensures Interleaving(a + b, a, b)
    decreases |a|
  {
    if a == [] {
      assert a + b == b;
      InterleavingRight(b);
    } else {
      assert (a + b)[1..] == a[1..] + b;
      InterleavingConcat(a[1..], b);
    }
  }

  /** Whatever the race outcomes, the channel holds an interleaving. */
  lemma {:induction false} MergeIsInterleaving(order: seq<bool>, a: seq<string>, b: seq<string>)
    ensures Interleaving(Merge(order, a, b), a, b)
    decreases |a| + |b|
  {
    if a == [] {
      InterleavingRight(b);
    } else if b == [] {
      assert a + b == a;
      InterleavingConcat(a, b);
    } else if order == [] {
      InterleavingConcat(a, b);
    } else if order[0] {
      MergeIsInterleaving(order[1..], a[1..], b);
    } else {
      MergeIsInterleaving(order[1..], a, b[1..]);
    }
  }

  /** An interleaving with one side empty is the other side. */
  lemma {:induction false} InterleavingOneSided(m: seq<string>, a: seq<string>, b: seq<string>)
    requires Interleaving(m, a, b)
    ensures a == [] ==> m == b
    ensures b == [] ==> m == a
    decreases |m|
  {
    if m != [] {
      if a != [] && m[0] == a[0] && Interleaving(m[1..], a[1..], b) {
        InterleavingOneSided(m[1..], a[1..], b);
      } else {
        InterleavingOneSided(m[1..], a, b[1..]);
      }
    }
  }

  /** The race outcomes that produce a given interleaving. */
  ghost function OrderOf(m: seq<string>, a: seq<string>, b: seq<string>): seq<bool>
    requires Interleaving(m, a, b)
    decreases |m|
  {
    if m == [] then []
    else if a != [] && m[0] == a[0] && Interleaving(m[1..], a[1..], b) then [true] + OrderOf(m[1..], a[1..], b)
    else [false] + OrderOf(m[1..], a, b[1..])
  }

  /** Every interleaving is reached by some race outcomes. */
  lemma {:induction false} InterleavingIsMerge(m: seq<string>, a: seq<string>, b: seq<string>)
    requires Interleaving(m, a, b)
    ensures Merge(OrderOf(m, a, b), a, b) == m
    decreases |m|
  {
    if a == [] || b == [] {
      InterleavingOneSided(m, a, b);
    } else if m[0] == a[0] && Interleaving(m[1..], a[1..], b) {
      InterleavingIsMerge(m[1..], a[1..], b);
    } else {
      InterleavingIsMerge(m[1..], a, b[1..]);
    }
  }

  /** The channel contents are exactly the interleavings of the streams. */
  lemma MergeIff(m: seq<string>, a: seq<string>, b: seq<string>)
    ensures Interleaving(m, a, b) <==> exists order :: Merge(order, a, b) == m
  {
    if Interleaving(m, a, b) {
      InterleavingIsMerge(m, a, b);
    }
    if exists order :: Merge(order, a, b) == m {
      var order :| Merge(order, a, b) == m;
      MergeIsInterleaving(order, a, b);
    }
  }

  /** An interleaving loses and duplicates nothing. */
  lemma {:induction false} InterleavingKeepsAll(m: seq<string>, a: seq<string>, b: seq<string>)
    requires Interleaving(m, a, b)
    ensures |m| == |a| + |b|
    ensures multiset(m) == multiset(a) + multiset(b)
    decreases |m|
  {
    if m != [] {
      if a != [] && m[0] == a[0] && Interleaving(m[1..], a[1..], b) {
        InterleavingKeepsAll(m[1..], a[1..], b);
        assert m == [m[0]] + m[1..] && a == [a[0]] + a[1..];
      } else {
        InterleavingKeepsAll(m[1..], a, b[1..]);
        assert m == [m[0]] + m[1..] && b == [b[0]] + b[1..];
      }
    }
  }

  /** The message sent after both readers have been joined, if any. */
  function FinalMessage(exit: WaitResult): seq<string>
  {
    match exit
    case WaitFailed => []
    case Exited(success, status) => if success then [DoneMessage] else [ExitPrefix + status]
  }

  /** Everything the relay receives, in channel order. */
  function Messages(run: ProcessRun, order: seq<bool>): (m: seq<string>)
    ensures |m| == match run
                   case SpawnFailed => 0
                   case Ran(out, err, exit) => |out| + |err| + (if exit.Exited? then 1 else 0)
  {
    match run
    case SpawnFailed => []
    case Ran(out, err, exit) => Merge(order, Texts(out), Texts(err)) + FinalMessage(exit)
  }

  /** The process ran to an exit status and finished successfully. */
  predicate Succeeded(run: ProcessRun)
  {
    run.Ran? && run.exit.Exited? && run.exit.success
  }

  /** The success message and a failure message can never be confused. */
  lemma FinalMessageIff(success: bool, status: string)
    ensures FinalMessage(Exited(success, status)) == [DoneMessage] <==> success
    ensures !success ==> StartsWith(FinalMessage(Exited(success, status))[0], ExitPrefix)
  {
    if !success {
      var msg := ExitPrefix + status;
      assert msg[0] == '线' != DoneMessage[0];
      assert msg[..|ExitPrefix|] == ExitPrefix;
    }
  }

  /** Once the process has an exit status, exactly one final message is
      sent, after every line of both streams, which arrive interleaved and
      complete, an unreadable line as an empty one. */
  lemma FinalAfterAllLines(run: ProcessRun, order: seq<bool>)
    requires run.Ran? && run.exit.Exited?
    ensures var m := Messages(run, order);
            var n := |run.stdout| + |run.stderr|;
            |m| == n + 1
            && Interleaving(m[..n], Texts(run.stdout), Texts(run.stderr))
            && m[n] == (if run.exit.success then DoneMessage else ExitPrefix + run.exit.status)
  {
    var lines := Merge(order, Texts(run.stdout), Texts(run.stderr));
    MergeIsInterleaving(order, Texts(run.stdout), Texts(run.stderr));
    InterleavingKeepsAll(lines, Texts(run.stdout), Texts(run.stderr));
    var m := Messages(run, order);
    assert m == lines + FinalMessage(run.exit);
    assert m[..|lines|] == lines;
  }

  /** Without an exit status no final message is sent: nothing at all when
      the process never started, only the interleaved lines when waiting for
      it failed. */
  lemma NoFinalWithoutExit(run: ProcessRun, order: seq<bool>)
    requires !(run.Ran? && run.exit.Exited?)
    ensures run.SpawnFailed? ==> Messages(run, order) == []
    ensures run.Ran? ==> Interleaving(Messages(run, order), Texts(run.stdout), Texts(run.stderr))
  {
    if run.Ran? {
      var lines := Merge(order, Texts(run.stdout), Texts(run.stderr));
      MergeIsInterleaving(order, Texts(run.stdout), Texts(run.stderr));
      assert FinalMessage(run.exit) == [] && lines + [] == lines;
    }
  }

  /** No line the downloader writes and no printed exit status holds a
      newline: line reading strips the terminator, and an exit status
      prints on one line. */
  predicate NoNewlines(run: ProcessRun)
  {
    run.Ran?
    ==> (forall i :: 0 <= i < |run.stdout| && run.stdout[i].Line? ==> '\n' !in run.stdout[i].text)
        && (forall i :: 0 <= i < |run.stderr| && run.stderr[i].Line? ==> '\n' !in run.stderr[i].text)
        && (run.exit.Exited? ==> '\n' !in run.exit.status)
  }

  /** A reader's messages hold no newline when its lines hold none. */
  lemma TextsSingleLines(got: seq<LineRead>)
    requires forall i :: 0 <= i < |got| && got[i].Line? ==> '\n' !in got[i].text
    ensures SingleLines(Texts(got))
  {
  }

  /** An interleaving of newline-free messages is newline-free. */
  lemma InterleavingSingleLines(m: seq<string>, a: seq<string>, b: seq<string>)
    requires Interleaving(m, a, b) && SingleLines(a) && SingleLines(b)
    ensures SingleLines(m)
  {
    InterleavingKeepsAll(m, a, b);
    forall k | 0 <= k < |m| ensures '\n' !in m[k] {
      assert m[k] in multiset(m);
      if m[k] in multiset(a) {
        var j :| 0 <= j < |a| && a[j] == m[k];
      } else {
        assert m[k] in multiset(b);
        var j :| 0 <= j < |b| && b[j] == m[k];
      }
    }
  }

  /** Every message the relay receives fits on one line of the status text. */
  lemma MessagesSingleLines(run: ProcessRun, order: seq<bool>)
    requires NoNewlines(run)
    ensures SingleLines(Messages(run, order))
  {
    if run.Ran? {
      var a, b := Texts(run.stdout), Texts(run.stderr);
      TextsSingleLines(run.stdout);
      TextsSingleLines(run.stderr);
      var lines := Merge(order, a, b);
      MergeIsInterleaving(order, a, b);
      InterleavingSingleLines(lines, a, b);
      var fin := FinalMessage(run.exit);
      assert SingleLines(fin) by {
        if run.exit.Exited? && !run.exit.success {
          var msg := ExitPrefix + run.exit.status;
          forall k | 0 <= k < |msg| ensures msg[k] != '\n' {
            if k >= |ExitPrefix| {
              assert msg[k] == run.exit.status[k - |ExitPrefix|];
            }
          }
        }
      }
      assert Messages(run, order) == lines + fin;
    }
  }
}

/**
 * Path and file-name arithmetic of check.py: `os.path.basename`, `os.path.join`,
 * the yt-dlp output template and the `.webm` to `.mp4` rewrite of the video path.
 */
module Paths {

  /** Where the downloads go (check.py:17). */
  const DownloadDir: string := "./downloads"

  /** The yt-dlp format selector of the video-only rendition (480p, no audio). */
  const VideoFormat: string := "135"

  /** The yt-dlp format selector of the audio-only rendition (m4a). */
  const AudioFormat: string := "140"

  /**
   * `os.path.basename` on POSIX: everything after the last '/'. The contract
   * says the result is the longest suffix of `p` without a '/'.
   */
  function Basename(p: string): (r: string)
    ensures '/' !in r
    ensures |r| <= |p|
    ensures forall k :: 0 <= k < |r| ==> r[k] == p[|p| - |r| + k]
    ensures |r| < |p| ==> p[|p| - |r| - 1] == '/'
    decreases |p|
  {
    if p == [] then []
    else if p[|p| - 1] == '/' then []
    else Basename(p[..|p| - 1]) + [p[|p| - 1]]
  }

  /** `os.path.join(a, b)` on POSIX for two components. */
  function Join(a: string, b: string): string
  {
    if |b| > 0 && b[0] == '/' then b
    else if a == [] || a[|a| - 1] == '/' then a + b
    else a + "/" + b
  }

  /** Appending a character other than '/' appends it to the base name. */
  lemma BasenameSnoc(q: string, c: char)
    requires c != '/'
    ensures Basename(q + [c]) == Basename(q) + [c]
  {
    assert (q + [c])[..|q|] == q;
  }

  /** Whatever follows a directory part that is empty or ends in '/' is the base name. */
  lemma {:induction false} BasenameAfterSlash(d: string, n: string)
    requires d == [] || d[|d| - 1] == '/'
    requires '/' !in n
    ensures Basename(d + n) == n
    decreases |n|
  {
    if n == [] {
      assert d + n == d;
    } else {
      var m := |n| - 1;
      assert n == n[..m] + [n[m]];
      assert d + n == (d + n[..m]) + [n[m]];
      BasenameSnoc(d + n[..m], n[m]);
      BasenameAfterSlash(d, n[..m]);
    }
  }

  /** Joining a directory and a plain file name yields a path whose base name is that file name. */
  lemma BasenameJoin(d: string, n: string)
    requires '/' !in n
    ensures Basename(Join(d, n)) == n
  {
    if d == [] || d[|d| - 1] == '/' {
      BasenameAfterSlash(d, n);
    } else {
      assert Join(d, n) == (d + "/") + n;
      BasenameAfterSlash(d + "/", n);
    }
  }

  /** The file-name part of the yt-dlp output template for one format (check.py:86). */
  function TemplateName(formatCode: string): string
  {
    "%(title)s.f" + formatCode + ".%(ext)s"
  }

  /** The yt-dlp output template (check.py:86). */
  function OutputTemplate(outputDir: string, formatCode: string): string
  {
    Join(outputDir, TemplateName(formatCode))
  }

  /**
   * A download lands directly in the output directory, under a name that
   * carries its format code.
   */
  lemma OutputTemplateName(outputDir: string, formatCode: string)
    requires '/' !in formatCode
    ensures Basename(OutputTemplate(outputDir, formatCode)) == TemplateName(formatCode)
  {
    var name := TemplateName(formatCode);
    assert '/' !in name by {
      assert name == "%(title)s.f" + formatCode + ".%(ext)s";
    }
    BasenameJoin(outputDir, name);
  }

  /** `pat` occurs in `s` starting at index `i`. */
  predicate OccursAt(s: string, pat: string, i: int)
  {
    0 <= i && i + |pat| <= |s| && s[i..i + |pat|] == pat
  }

  /** No occurrence of `pat` in `s` starts before index `n`. */
  predicate NoMatchBefore(s: string, pat: string, n: int)
  {
    forall i :: 0 <= i < n ==> !OccursAt(s, pat, i)
  }

  /**
   * Python's `str.replace(pat, rep)` for a non-empty `pat`: every occurrence,
   * scanning left to right and without overlaps, is replaced.
   */
  function ReplaceAll(s: string, pat: string, rep: string): string
    requires pat != []
    decreases |s|
  {
    if |s| < |pat| then s
    else if s[..|pat|] == pat then rep + ReplaceAll(s[|pat|..], pat, rep)
    else [s[0]] + ReplaceAll(s[1..], pat, rep)
  }

  /** Dropping the first character keeps the occurrence-free prefix occurrence-free. */
  lemma NoMatchBeforeTail(s: string, pat: string, n: nat)
    requires 0 < n <= |s|
    requires NoMatchBefore(s, pat, n)
    ensures NoMatchBefore(s[1..], pat, n - 1)
  {
    forall i | 0 <= i < n - 1
      ensures !OccursAt(s[1..], pat, i)
    {
      assert !OccursAt(s, pat, i + 1);
      if i + |pat| <= |s[1..]| {
        assert s[1..][i..i + |pat|] == s[i + 1..i + 1 + |pat|];
      }
    }
  }

  /** A prefix in which no occurrence of `pat` starts is copied unchanged. */
  lemma {:induction false} ReplaceAllSkips(a: string, b: string, pat: string, rep: string)
    requires pat != []
    requires NoMatchBefore(a + b, pat, |a|)
    ensures ReplaceAll(a + b, pat, rep) == a + ReplaceAll(b, pat, rep)
  {
    var s := a + b;
    if a == [] {
      assert s == b;
    } else if |s| < |pat| {
      assert |b| < |pat|;
    } else {
      assert !OccursAt(s, pat, 0);
      assert ReplaceAll(s, pat, rep) == [s[0]] + ReplaceAll(s[1..], pat, rep);
      assert s[1..] == a[1..] + b;
      NoMatchBeforeTail(s, pat, |a|);
      ReplaceAllSkips(a[1..], b, pat, rep);
      assert [a[0]] + a[1..] == a;
    }
  }

  /** A string with no occurrence of `pat` is left as it is. */
  lemma ReplaceAllWithoutMatch(s: string, pat: string, rep: string)
    requires pat != []
    requires NoMatchBefore(s, pat, |s|)
    ensures ReplaceAll(s, pat, rep) == s
  {
    assert s + [] == s;
    ReplaceAllSkips(s, [], pat, rep);
  }

  /** The only occurrence, at the very end, is replaced. */
  lemma ReplaceAllAtEnd(stem: string, pat: string, rep: string)
    requires pat != []
    requires NoMatchBefore(stem + pat, pat, |stem|)
    ensures ReplaceAll(stem + pat, pat, rep) == stem + rep
  {
    ReplaceAllSkips(stem, pat, pat, rep);
    assert pat[|pat|..] == [];
    assert rep + [] == rep;
  }

  /**
   * The path `download_file` returns for a prepared file name (check.py:92-96):
   * for format 135 every ".webm" becomes ".mp4"; other formats are untouched.
   */
  function DownloadedPath(prepared: string, formatCode: string): string
  {
    if formatCode == VideoFormat then ReplaceAll(prepared, ".webm", ".mp4") else prepared
  }

  /** A 135 download named `<stem>.webm` is reported as `<stem>.mp4`. */
  lemma WebmVideoReportedAsMp4(stem: string)
    requires NoMatchBefore(stem + ".webm", ".webm", |stem|)
    ensures DownloadedPath(stem + ".webm", VideoFormat) == stem + ".mp4"
  {
    ReplaceAllAtEnd(stem, ".webm", ".mp4");
  }

  /** The path is returned unchanged for the audio format, or when it holds no ".webm". */
  lemma DownloadedPathUnchanged(prepared: string, formatCode: string)
    requires formatCode != VideoFormat || NoMatchBefore(prepared, ".webm", |prepared|)
    ensures DownloadedPath(prepared, formatCode) == prepared
  {
    if formatCode == VideoFormat {
      ReplaceAllWithoutMatch(prepared, ".webm", ".mp4");
    }
  }
}

/**
 * The texts check.py builds for a video: its watch URL (check.py:116), the
 * caption passed to `send_file` (check.py:121, 125) and the caption actually
 * posted, prefixed with the file's base name (check.py:39).
 */
module Captions {
  import opened Wrappers
  import opened Paths

  /** The fixed prefix of a video's watch URL. */
  const WatchPrefix: string := "https://www.youtube.com/watch?v="

  /** The title `download_file` reports when the metadata has none (check.py:97). */
  const DefaultTitle: string := "No Title"

  /** The watch URL of a video: the prefix, then the id, which can be read back after it. */
  function VideoUrl(id: string): (url: string)
    ensures |url| == |WatchPrefix| + |id|
    ensures url[..|WatchPrefix|] == WatchPrefix && url[|WatchPrefix|..] == id
  {
    WatchPrefix + id
  }

  /** Different ids never share a URL, so deduplicating by id is deduplicating by URL. */
  lemma VideoUrlInjective(a: string, b: string)
    requires VideoUrl(a) == VideoUrl(b)
    ensures a == b
  {
  }

  /** `info.get("title", "No Title")` (check.py:97). */
  function TitleOf(title: Option<string>): string
  {
    title.GetOr(DefaultTitle)
  }

  /** The caption the loop hands to `send_file`: title, newline, URL (check.py:121, 125). */
  function Caption(title: string, url: string): string
  {
    title + "\n" + url
  }

  /** The caption `send_file` posts: the file's base name, newline, the given caption (check.py:39). */
  function PostedCaption(path: string, caption: string): string
  {
    Basename(path) + "\n" + caption
  }

  /** Python's `s.split("\n")`: the lines of `s`, always at least one. */
  function Lines(s: string): (ls: seq<string>)
    ensures |ls| >= 1
    decreases |s|
  {
    if s == [] then [[]]
    else
      var rest := Lines(s[1..]);
      if s[0] == '\n' then [[]] + rest
      else [[s[0]] + rest[0]] + rest[1..]
  }

  /** A text without a newline is one line. */
  lemma {:induction false} LinesOfLine(a: string)
    requires '\n' !in a
    ensures Lines(a) == [a]
    decreases |a|
  {
    if a != [] {
      LinesOfLine(a[1..]);
      assert [a[0]] + a[1..] == a;
    }
  }

  /** A line followed by a newline and more text splits off as the first line. */
  lemma {:induction false} LinesCons(a: string, b: string)
    requires '\n' !in a
    ensures Lines(a + "\n" + b) == [a] + Lines(b)
    decreases |a|
  {
    var s := a + "\n" + b;
    if a == [] {
      assert s == "\n" + b;
      assert s[1..] == b;
    } else {
      assert s[1..] == a[1..] + "\n" + b;
      LinesCons(a[1..], b);
      assert [a[0]] + a[1..] == a;
    }
  }

  /** A base name holds no character its path does not. */
  lemma BasenameKeepsNewlinesOut(path: string)
    requires '\n' !in path
    ensures '\n' !in Basename(path)
  {
    var name := Basename(path);
    forall k | 0 <= k < |name| ensures name[k] != '\n' {
      assert name[k] == path[|path| - |name| + k];
    }
  }

  /** A URL holds a newline only if its id does. */
  lemma VideoUrlKeepsNewlinesOut(id: string)
    requires '\n' !in id
    ensures '\n' !in VideoUrl(id)
  {
    assert '\n' !in WatchPrefix;
    assert VideoUrl(id) == WatchPrefix + id;
  }

  /**
   * The posted caption reads as three lines: the file's base name, the title
   * and the video URL, provided none of them holds a newline.
   */
  lemma PostedCaptionLines(path: string, title: string, id: string)
    requires '\n' !in path && '\n' !in title && '\n' !in id
    ensures Lines(PostedCaption(path, Caption(title, VideoUrl(id)))) == [Basename(path), title, VideoUrl(id)]
  {
    var name := Basename(path);
    var url := VideoUrl(id);
    BasenameKeepsNewlinesOut(path);
    VideoUrlKeepsNewlinesOut(id);
    assert PostedCaption(path, Caption(title, url)) == name + "\n" + (title + "\n" + url);
    LinesCons(name, title + "\n" + url);
    LinesCons(title, url);
    LinesOfLine(url);
  }
}

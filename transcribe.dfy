/**
 * The batch transcription script (scripts/transcribe/transcribe_audio.py and
 * its older copy transcribe_audio.py at the repository root). The input
 * directory is a list of entries found under it (relative POSIX path and
 * whether the entry is a regular file); Whisper, the file system's `exists`
 * and `resolve` are an opaque environment; the output file is an object whose
 * content is absent while the file does not exist.
 */
module Transcribe {

  import opened Wrappers

  const AudioExtensions: set<string> := {".wav", ".mp3", ".flac", ".ogg", ".m4a"}

  /** One path yielded by `rglob('*')`, relative to the input directory. */
  datatype Entry = Entry(relPath: string, isFile: bool)

  // ---------------------------------------------------------------- suffixes

  /** The last index of `c` in `s`, or -1 (`str.rfind`). */
  function LastIndexOf(s: string, c: char): (r: int)
    ensures -1 <= r < |s|
    ensures r >= 0 ==> s[r] == c && forall j :: r < j < |s| ==> s[j] != c
    ensures r == -1 ==> forall j :: 0 <= j < |s| ==> s[j] != c
  {
    if s == [] then -1 else if s[|s| - 1] == c then |s| - 1 else LastIndexOf(s[..|s| - 1], c)
  }

  /** `Path.name`: the part after the last "/". */
  function BaseName(path: string): (r: string)
    ensures |r| <= |path| && '/' !in r && r == path[|path| - |r|..]
    ensures |r| < |path| ==> path[|path| - |r| - 1] == '/'
  {
    var i := LastIndexOf(path, '/');
    path[i + 1..]
  }

  /**
   * `PurePath.suffix`: from the last "." of the name on, provided that dot is
   * neither the name's first character nor its last; otherwise empty.
   */
  function Suffix(name: string): (r: string)
    ensures r != "" ==> |r| >= 2 && r[0] == '.' && '.' !in r[1..]
    ensures r != "" ==> |r| < |name| && r == name[|name| - |r|..]
  {
    var i := LastIndexOf(name, '.');
    if 0 < i < |name| - 1 then name[i..] else ""
  }

  function LowerChar(c: char): char
  {
    if 'A' <= c <= 'Z' then (c as int - 'A' as int + 'a' as int) as char else c
  }

  /** `str.lower()` on ASCII letters. */
  function Lower(s: string): (r: string)
    ensures |r| == |s| && forall i :: 0 <= i < |s| ==> r[i] == LowerChar(s[i])
  {
    if s == [] then [] else [LowerChar(s[0])] + Lower(s[1..])
  }

  /** `p.suffix.lower() in AUDIO_EXTENSIONS and p.is_file()` */
  predicate IsAudioFile(e: Entry)
  {
    Lower(Suffix(BaseName(e.relPath))) in AudioExtensions && e.isFile
  }

  /** The entries satisfying `keep`, in their order. */
  function Filter(entries: seq<Entry>, keep: Entry -> bool): seq<Entry>
  {
    if entries == [] then []
    else if keep(entries[0]) then [entries[0]] + Filter(entries[1..], keep)
    else Filter(entries[1..], keep)
  }

  /** A filter keeps every satisfying entry, as often as it is listed, and nothing else. */
  lemma {:induction false} FilterCounts(entries: seq<Entry>, keep: Entry -> bool)
    ensures forall e :: multiset(Filter(entries, keep))[e] == if keep(e) then multiset(entries)[e] else 0
  {
    if entries != [] {
      var x, rest := entries[0], entries[1..];
      FilterCounts(rest, keep);
      assert entries == [x] + rest;
      assert multiset(entries) == multiset{x} + multiset(rest);
      if keep(x) {
        assert multiset(Filter(entries, keep)) == multiset{x} + multiset(Filter(rest, keep));
      }
    }
  }

  /** A filter that rejects every entry keeps nothing. */
  lemma {:induction false} FilterNone(entries: seq<Entry>, keep: Entry -> bool)
    requires forall i :: 0 <= i < |entries| ==> !keep(entries[i])
    ensures Filter(entries, keep) == []
  {
    if entries != [] {
      assert !keep(entries[0]);
      FilterNone(entries[1..], keep);
    }
  }

  /** The comprehension's filter: the audio files among the entries, in rglob order. */
  function KeepAudio(entries: seq<Entry>): seq<Entry>
  {
    Filter(entries, IsAudioFile)
  }

  lemma KeepAudioCounts(entries: seq<Entry>)
    ensures forall e :: multiset(KeepAudio(entries))[e] == if IsAudioFile(e) then multiset(entries)[e] else 0
  {
    FilterCounts(entries, IsAudioFile);
  }

  // ----------------------------------------------------------------- sorting

  /** Python's `<=` on strings: lexicographic by code point. */
  predicate PathLe(a: string, b: string)
  {
    if a == [] then true
    else if b == [] then false
    else if a[0] != b[0] then a[0] < b[0]
    else PathLe(a[1..], b[1..])
  }

  lemma {:induction false} PathLeReflexive(a: string)
    ensures PathLe(a, a)
  {
    if a != [] {
      PathLeReflexive(a[1..]);
    }
  }

  lemma {:induction false} PathLeTotal(a: string, b: string)
    ensures PathLe(a, b) || PathLe(b, a)
  {
    if a != [] && b != [] && a[0] == b[0] {
      PathLeTotal(a[1..], b[1..]);
    }
  }

  lemma {:induction false} PathLeTransitive(a: string, b: string, c: string)
    requires PathLe(a, b) && PathLe(b, c)
    ensures PathLe(a, c)
  {
    if a != [] && b != [] && c != [] && a[0] == b[0] && b[0] == c[0] {
      PathLeTransitive(a[1..], b[1..], c[1..]);
    }
  }

  lemma {:induction false} PathLeAntisymmetric(a: string, b: string)
    requires PathLe(a, b) && PathLe(b, a)
    ensures a == b
  {
    if a != [] && b != [] {
      PathLeAntisymmetric(a[1..], b[1..]);
      assert a == [a[0]] + a[1..] && b == [b[0]] + b[1..];
    }
  }

  predicate SortedByPath(xs: seq<Entry>)
  {
    forall i, j :: 0 <= i < j < |xs| ==> PathLe(xs[i].relPath, xs[j].relPath)
  }

  function Insert(e: Entry, sorted: seq<Entry>): (r: seq<Entry>)
    ensures multiset(r) == multiset(sorted) + multiset{e}
  {
    if sorted == [] || PathLe(e.relPath, sorted[0].relPath) then [e] + sorted
    else
      assert sorted == [sorted[0]] + sorted[1..];
      [sorted[0]] + Insert(e, sorted[1..])
  }

  /** Putting a lower bound of a sorted list in front keeps it sorted. */
  lemma ConsSorted(h: Entry, t: seq<Entry>)
    requires SortedByPath(t)
    requires forall y :: y in t ==> PathLe(h.relPath, y.relPath)
    ensures SortedByPath([h] + t)
  {
    var r := [h] + t;
    forall i, j | 0 <= i < j < |r| ensures PathLe(r[i].relPath, r[j].relPath) {
      if i == 0 {
        assert r[j] == t[j - 1] && r[j] in t;
      } else {
        assert r[i] == t[i - 1] && r[j] == t[j - 1];
      }
    }
  }

  /** The head of a sorted list bounds everything inserting a larger entry into its tail gives. */
  lemma HeadBoundsInsert(e: Entry, sorted: seq<Entry>)
    requires SortedByPath(sorted) && sorted != []
    requires PathLe(sorted[0].relPath, e.relPath)
    ensures forall y :: y in Insert(e, sorted[1..]) ==> PathLe(sorted[0].relPath, y.relPath)
  {
    var tail := Insert(e, sorted[1..]);
    forall y | y in tail ensures PathLe(sorted[0].relPath, y.relPath) {
      assert y in multiset(tail);
      if y != e {
        assert y in multiset(sorted[1..]);
        var j :| 0 <= j < |sorted[1..]| && sorted[1..][j] == y;
        assert sorted[j + 1] == y;
      }
    }
  }

  lemma {:induction false} InsertSorted(e: Entry, sorted: seq<Entry>)
    requires SortedByPath(sorted)
    ensures SortedByPath(Insert(e, sorted))
  {
    if sorted == [] {
    } else if PathLe(e.relPath, sorted[0].relPath) {
      forall j | 0 < j < |sorted| ensures PathLe(e.relPath, sorted[j].relPath) {
        PathLeTransitive(e.relPath, sorted[0].relPath, sorted[j].relPath);
      }
    } else {
      InsertSorted(e, sorted[1..]);
      PathLeTotal(e.relPath, sorted[0].relPath);
      HeadBoundsInsert(e, sorted);
      ConsSorted(sorted[0], Insert(e, sorted[1..]));
    }
  }

  /** `sorted(files, key=...)`: insertion sort by relative path. */
  function SortByPath(xs: seq<Entry>): (r: seq<Entry>)
    ensures multiset(r) == multiset(xs)
    ensures SortedByPath(r)
  {
    if xs == [] then []
    else
      assert xs == [xs[0]] + xs[1..];
      InsertSorted(xs[0], SortByPath(xs[1..]));
      Insert(xs[0], SortByPath(xs[1..]))
  }

  /**
   * A sorted arrangement of files is unique: two files with the same relative
   * path are the same entry. So the insertion sort gives the list Python's
   * `sorted` gives.
   */
  lemma {:induction false} SortedArrangementUnique(a: seq<Entry>, b: seq<Entry>)
    requires SortedByPath(a) && SortedByPath(b) && multiset(a) == multiset(b)
    requires forall i :: 0 <= i < |a| ==> a[i].isFile
    ensures a == b
  {
    if a != [] {
      assert b != [] by { assert a[0] in multiset(b); }
      var a', b' := a[1..], b[1..];
      assert multiset(a') == multiset(b') by {
        SortedHeadsAgree(a, b);
        assert a == [a[0]] + a' && b == [b[0]] + b';
        assert multiset(a) == multiset{a[0]} + multiset(a');
        assert multiset(b) == multiset{a[0]} + multiset(b');
        MultisetCancel(multiset{a[0]}, multiset(a'), multiset(b'));
      }
      assert SortedByPath(a') && SortedByPath(b') by {
        forall i, j | 0 <= i < j < |a'| ensures PathLe(a'[i].relPath, a'[j].relPath) {
          assert a'[i] == a[i + 1] && a'[j] == a[j + 1];
        }
        forall i, j | 0 <= i < j < |b'| ensures PathLe(b'[i].relPath, b'[j].relPath) {
          assert b'[i] == b[i + 1] && b'[j] == b[j + 1];
        }
      }
      assert forall i :: 0 <= i < |a'| ==> a'[i].isFile by {
        forall i | 0 <= i < |a'| ensures a'[i].isFile {
          assert a'[i] == a[i + 1];
        }
      }
      SortedArrangementUnique(a', b');
      SortedHeadsAgree(a, b);
      assert a == [a[0]] + a' && b == [b[0]] + b';
    }
  }

  lemma MultisetCancel(m: multiset<Entry>, x: multiset<Entry>, y: multiset<Entry>)
    requires m + x == m + y
    ensures x == y
  {
    assert forall e :: x[e] == (m + x)[e] - m[e];
    assert forall e :: y[e] == (m + y)[e] - m[e];
  }

  /** Two sorted arrangements of the same files start with the same file. */
  lemma SortedHeadsAgree(a: seq<Entry>, b: seq<Entry>)
    requires a != [] && b != []
    requires SortedByPath(a) && SortedByPath(b) && multiset(a) == multiset(b)
    requires forall i :: 0 <= i < |a| ==> a[i].isFile
    ensures a[0] == b[0]
  {
    assert a[0] in multiset(b) && b[0] in multiset(a);
    var i :| 0 <= i < |a| && a[i] == b[0];
    var j :| 0 <= j < |b| && b[j] == a[0];
    assert PathLe(a[0].relPath, b[0].relPath) by {
      if i == 0 { PathLeReflexive(a[0].relPath); }
    }
    assert PathLe(b[0].relPath, a[0].relPath) by {
      if j == 0 { PathLeReflexive(b[0].relPath); }
    }
    PathLeAntisymmetric(a[0].relPath, b[0].relPath);
  }

  /** `find_audio_files(directory)` */
  function FindAudioFiles(entries: seq<Entry>): seq<Entry>
  {
    SortByPath(KeepAudio(entries))
  }

  /**
   * The result holds exactly the audio files, each as often as it was listed,
   * sorted by relative path; and it is the only list that does.
   */
  lemma FindAudioFilesSpec(entries: seq<Entry>, other: seq<Entry>)
    ensures var r := FindAudioFiles(entries);
      && SortedByPath(r)
      && (forall e :: multiset(r)[e] == if IsAudioFile(e) then multiset(entries)[e] else 0)
      && (forall e :: e in r <==> e in entries && IsAudioFile(e))
    ensures SortedByPath(other) && multiset(other) == multiset(KeepAudio(entries))
            ==> other == FindAudioFiles(entries)
  {
    var r := FindAudioFiles(entries);
    KeepAudioCounts(entries);
    forall e ensures e in r <==> e in entries && IsAudioFile(e) {
      assert e in r <==> e in multiset(r);
      assert e in entries <==> e in multiset(entries);
    }
    forall i | 0 <= i < |r| ensures r[i].isFile {
      assert r[i] in multiset(r);
    }
    if SortedByPath(other) && multiset(other) == multiset(KeepAudio(entries)) {
      SortedArrangementUnique(r, other);
    }
  }

  // ----------------------------------------------------------- transcription

  /** `str.isspace()`: the characters Python's `strip()` removes. */
  predicate IsSpace(c: char)
  {
    var n := c as int;
    (9 <= n <= 13) || (28 <= n <= 32) || n == 0x85 || n == 0xA0 || n == 0x1680
    || (0x2000 <= n <= 0x200A) || n == 0x2028 || n == 0x2029 || n == 0x202F
    || n == 0x205F || n == 0x3000
  }

  /** Drops the leading characters satisfying `sp`. */
  function TrimLeft(s: string, sp: char -> bool): string
  {
    if s != [] && sp(s[0]) then TrimLeft(s[1..], sp) else s
  }

  /** Drops the trailing characters satisfying `sp`. */
  function TrimRight(s: string, sp: char -> bool): string
  {
    if s != [] && sp(s[|s| - 1]) then TrimRight(s[..|s| - 1], sp) else s
  }

  /** `TrimLeft` keeps a suffix, drops only characters of `sp` and stops at one that is not. */
  lemma {:induction false} TrimLeftSuffix(s: string, sp: char -> bool)
    ensures var r := TrimLeft(s, sp);
      && |r| <= |s| && r == s[|s| - |r|..]
      && (forall k :: 0 <= k < |s| - |r| ==> sp(s[k]))
      && (r == [] || !sp(r[0]))
  {
    if s != [] && sp(s[0]) {
      TrimLeftSuffix(s[1..], sp);
      var r := TrimLeft(s[1..], sp);
      assert s[1..][|s| - 1 - |r|..] == s[|s| - |r|..];
      forall k | 1 <= k < |s| - |r| ensures sp(s[k]) {
        assert s[k] == s[1..][k - 1];
      }
    }
  }

  /** `TrimRight` keeps a prefix, drops only characters of `sp` and stops at one that is not. */
  lemma {:induction false} TrimRightPrefix(s: string, sp: char -> bool)
    ensures var r := TrimRight(s, sp);
      && |r| <= |s| && r == s[..|r|]
      && (forall k :: |r| <= k < |s| ==> sp(s[k]))
      && (r == [] || !sp(r[|r| - 1]))
  {
    if s != [] && sp(s[|s| - 1]) {
      TrimRightPrefix(s[..|s| - 1], sp);
      var r := TrimRight(s[..|s| - 1], sp);
      assert s[..|s| - 1][..|r|] == s[..|r|];
      forall k | |r| <= k < |s| - 1 ensures sp(s[k]) {
        assert s[k] == s[..|s| - 1][k];
      }
    }
  }

  /** A prefix `r` of a suffix `l` of `s` is a contiguous slice of `s`, and what `r` leaves
      of `l` is the tail of `s`. */
  lemma PrefixOfSuffix(s: string, l: string, r: string, sp: char -> bool)
    requires |r| <= |l| <= |s|
    requires l == s[|s| - |l|..] && r == l[..|r|]
    requires forall k :: |r| <= k < |l| ==> sp(l[k])
    ensures r == s[|s| - |l|..|s| - |l| + |r|]
    ensures forall k :: |s| - |l| + |r| <= k < |s| ==> sp(s[k])
  {
    var i := |s| - |l|;
    assert s[i..][..|r|] == s[i..i + |r|];
    forall k | i + |r| <= k < |s| ensures sp(s[k]) {
      assert s[k] == l[k - i];
    }
  }

  /** Trimming both ends removes surrounding characters of `sp` and nothing else. */
  lemma TrimSlice(s: string, sp: char -> bool)
    ensures |TrimRight(TrimLeft(s, sp), sp)| <= |TrimLeft(s, sp)| <= |s|
    ensures var i := |s| - |TrimLeft(s, sp)|;
      TrimRight(TrimLeft(s, sp), sp) == s[i..i + |TrimRight(TrimLeft(s, sp), sp)|]
    ensures forall k :: 0 <= k < |s| - |TrimLeft(s, sp)| ==> sp(s[k])
    ensures forall k :: |s| - |TrimLeft(s, sp)| + |TrimRight(TrimLeft(s, sp), sp)| <= k < |s| ==> sp(s[k])
    ensures var r := TrimRight(TrimLeft(s, sp), sp); r == [] || (!sp(r[0]) && !sp(r[|r| - 1]))
  {
    var l := TrimLeft(s, sp);
    var r := TrimRight(l, sp);
    TrimLeftSuffix(s, sp);
    TrimRightPrefix(l, sp);
    PrefixOfSuffix(s, l, r, sp);
    assert r != [] ==> r[0] == l[0];
  }

  /** Trimming what is already trimmed changes nothing. */
  lemma TrimIdempotent(s: string, sp: char -> bool)
    ensures var t := TrimRight(TrimLeft(s, sp), sp); TrimRight(TrimLeft(t, sp), sp) == t
  {
    TrimSlice(s, sp);
  }

  /** `str.strip()` */
  function Strip(s: string): string
  {
    TrimRight(TrimLeft(s, IsSpace), IsSpace)
  }

  /** Strip removes surrounding whitespace and nothing else, and leaves none at either end. */
  lemma StripSlice(s: string)
    ensures var i := |s| - |TrimLeft(s, IsSpace)|; var r := Strip(s); var j := i + |r|;
      && 0 <= i <= j <= |s| && r == s[i..j]
      && (forall k :: 0 <= k < i ==> IsSpace(s[k]))
      && (forall k :: j <= k < |s| ==> IsSpace(s[k]))
      && (r == [] || (!IsSpace(r[0]) && !IsSpace(r[|r| - 1])))
  {
    TrimSlice(s, IsSpace);
  }

  lemma StripIdempotent(s: string)
    ensures Strip(Strip(s)) == Strip(s)
  {
    TrimIdempotent(s, IsSpace);
  }

  /** What Whisper does with one file: returns a result text, or raises. */
  datatype WhisperOutcome = Transcribed(text: string) | Raised(message: string)

  /**
   * `transcribe_file`: an error line for a missing file (Whisper is not
   * called), another for a failed transcription, else the stripped text.
   */
  function TranscribeFile(present: bool, absPath: string, whisper: WhisperOutcome): (r: string)
    ensures !present ==> r == "[ERROR: File does not exist: " + absPath + "]"
    ensures present && whisper.Raised? ==> r == "[ERROR: " + whisper.message + "]"
    ensures present && whisper.Transcribed? ==> r == Strip(whisper.text)
  {
    if !present then "[ERROR: File does not exist: " + absPath + "]"
    else match whisper
      case Raised(e) => "[ERROR: " + e + "]"
      case Transcribed(t) => Strip(t)
  }

  /** A transcript never starts or ends with whitespace. */
  lemma TranscriptTrimmed(absPath: string, text: string)
    ensures var r := TranscribeFile(true, absPath, Transcribed(text));
      r == [] || (!IsSpace(r[0]) && !IsSpace(r[|r| - 1]))
  {
    TrimSlice(text, IsSpace);
  }

  // ------------------------------------------------------------ output format

  /** The block one file contributes: "### {rel}\n{text}\n\n". */
  function Block(relPath: string, text: string): string
  {
    "### " + relPath + "\n" + text + "\n\n"
  }

  /** The first index of `c` in `s`, or -1. */
  function IndexOf(s: string, c: char): (r: int)
    ensures -1 <= r < |s|
    ensures r >= 0 ==> s[r] == c && forall j :: 0 <= j < r ==> s[j] != c
    ensures r == -1 ==> forall j :: 0 <= j < |s| ==> s[j] != c
  {
    if s == [] then -1
    else if s[0] == c then 0
    else
      var r := IndexOf(s[1..], c);
      if r == -1 then -1 else r + 1
  }

  /** Reads one block back into its path and its text. */
  function ParseBlock(b: string): Option<(string, string)>
  {
    if |b| >= 4 && b[..4] == "### " then
      var body := b[4..];
      var i := IndexOf(body, '\n');
      if i < 0 then None
      else
        var rest := body[i + 1..];
        if |rest| >= 2 && rest[|rest| - 2..] == "\n\n" then Some((body[..i], rest[..|rest| - 2]))
        else None
    else None
  }

  /** A block gives back its path and text, for any path without a line break. */
  lemma BlockRoundTrip(relPath: string, text: string)
    requires '\n' !in relPath
    ensures ParseBlock(Block(relPath, text)) == Some((relPath, text))
  {
    var b := Block(relPath, text);
    var body := b[4..];
    assert b[..4] == "### ";
    assert body == relPath + "\n" + text + "\n\n";
    assert body[|relPath|] == '\n';
    assert forall j :: 0 <= j < |relPath| ==> body[j] == relPath[j];
    assert IndexOf(body, '\n') == |relPath|;
    var rest := body[|relPath| + 1..];
    assert rest == text + "\n\n";
    assert rest[|rest| - 2..] == "\n\n";
    assert rest[..|rest| - 2] == text;
    assert body[..|relPath|] == relPath;
  }

  /** The file system and the model, as seen by the script: opaque to it. */
  datatype Environment = Environment(
    present: string -> bool,
    resolve: string -> string,
    whisper: string -> WhisperOutcome)

  /** The text written for the audio file at `relPath`. */
  function FileText(env: Environment, relPath: string): string
  {
    TranscribeFile(env.present(relPath), env.resolve(relPath), env.whisper(relPath))
  }

  function FileBlock(env: Environment, file: Entry): string
  {
    Block(file.relPath, FileText(env, file.relPath))
  }

  /** One block per file, in the order of `files`. */
  function Blocks(files: seq<Entry>, env: Environment): string
  {
    if files == [] then "" else Blocks(files[..|files| - 1], env) + FileBlock(env, files[|files| - 1])
  }

  lemma {:induction false} BlocksAppend(a: seq<Entry>, b: seq<Entry>, env: Environment)
    ensures Blocks(a + b, env) == Blocks(a, env) + Blocks(b, env)
  {
    if b != [] {
      var ab := a + b;
      assert ab[..|ab| - 1] == a + b[..|b| - 1];
      assert ab[|ab| - 1] == b[|b| - 1];
      BlocksAppend(a, b[..|b| - 1], env);
    } else {
      assert a + b == a;
    }
  }

  lemma BlocksStep(files: seq<Entry>, i: nat, env: Environment)
    requires i < |files|
    ensures Blocks(files[..i + 1], env) == Blocks(files[..i], env) + FileBlock(env, files[i])
  {
    assert files[..i + 1][..i] == files[..i];
  }

  /** The output starts with the first file's block. */
  lemma BlocksStartWithFirstFile(files: seq<Entry>, env: Environment)
    requires files != []
    ensures Blocks(files, env) == FileBlock(env, files[0]) + Blocks(files[1..], env)
  {
    assert files == [files[0]] + files[1..];
    BlocksAppend([files[0]], files[1..], env);
    assert [files[0]][..0] == [];
  }

  // ------------------------------------------------------------------ the run

  /** The output file `.audio-outputs/transcription.txt`; `None` while it does not exist. */
  class OutputFile {
    var content: Option<string>

    constructor (initial: Option<string>)
      ensures content == initial
    {
      content := initial;
    }

    /** `output_path.exists()` */
    method Exists() returns (b: bool)
      ensures b <==> content.Some?
    {
      b := content.Some?;
    }

    /** `OUTPUT_FILE.unlink()` */
    method Unlink()
      requires content.Some?
      modifies this
      ensures content == None
    {
      content := None;
    }

    /**
     * `write_transcription`: appends the block when asked to and the file
     * exists; otherwise the file is created or truncated to just the block.
     */
    method WriteTranscription(relPath: string, text: string, append: bool)
      modifies this
      ensures content == Some(if append && old(content).Some? then old(content).value + Block(relPath, text)
                              else Block(relPath, text))
    {
      var exists_ := Exists();
      if append && exists_ {
        content := Some(content.value + Block(relPath, text));
      } else {
        content := Some(Block(relPath, text));
      }
    }
  }

  /** How a run ends: the process exit code and what the output file then holds. */
  datatype RunResult = RunResult(exitCode: nat, output: Option<string>)

  /**
   * The batch from the output clean-up on: without `--append` an existing
   * output is removed; no audio files ends the run with code 0; a model that
   * fails to load ends it with code 1; otherwise one block per audio file, in
   * sorted order, is appended.
   */
  function BatchOutcome(entries: seq<Entry>, append: bool, modelLoads: bool, env: Environment,
                        previous: Option<string>): RunResult
  {
    var kept := if append then previous else None;
    var files := FindAudioFiles(entries);
    if files == [] then RunResult(0, kept)
    else if !modelLoads then RunResult(1, kept)
    else RunResult(0, Some(kept.GetOr("") + Blocks(files, env)))
  }

  /** The script's run: a missing input directory exits with code 1 and leaves the output alone. */
  function ScriptOutcome(inputExists: bool, entries: seq<Entry>, append: bool, modelLoads: bool,
                         env: Environment, previous: Option<string>): RunResult
  {
    if !inputExists then RunResult(1, previous)
    else BatchOutcome(entries, append, modelLoads, env, previous)
  }

  /** With `--append`, whatever the output held before is a prefix of what it holds after. */
  lemma AppendKeepsPrevious(entries: seq<Entry>, modelLoads: bool, env: Environment, previous: string)
    ensures var o := BatchOutcome(entries, true, modelLoads, env, Some(previous));
      o.output.Some? && previous <= o.output.value
  {
  }

  /**
   * Without `--append` nothing of the old output survives: the file is gone
   * when nothing was transcribed, and otherwise holds exactly the blocks.
   */
  lemma OverwriteDropsPrevious(entries: seq<Entry>, modelLoads: bool, env: Environment, previous: Option<string>)
    ensures var o := BatchOutcome(entries, false, modelLoads, env, previous);
      && (o.output.None? <==> FindAudioFiles(entries) == [] || !modelLoads)
      && (o.output.Some? ==> o.output.value == Blocks(FindAudioFiles(entries), env))
      && (o.exitCode == 1 <==> FindAudioFiles(entries) != [] && !modelLoads)
  {
  }

  /** No audio files: exit code 0 and no block written. */
  lemma NoAudioFilesWritesNothing(entries: seq<Entry>, append: bool, modelLoads: bool, env: Environment,
                                  previous: Option<string>)
    requires forall i :: 0 <= i < |entries| ==> !IsAudioFile(entries[i])
    ensures BatchOutcome(entries, append, modelLoads, env, previous)
            == RunResult(0, if append then previous else None)
  {
    FilterNone(entries, IsAudioFile);
    assert KeepAudio(entries) == [];
  }

  /** The script with no input directory: exit 1 before the output is touched. */
  lemma MissingInputDirectory(entries: seq<Entry>, append: bool, modelLoads: bool, env: Environment,
                              previous: Option<string>)
    ensures ScriptOutcome(false, entries, append, modelLoads, env, previous) == RunResult(1, previous)
  {
  }

  /**
   * Lines 91-108 of the root copy, which are lines 170-187 of the script:
   * clean up the output, find the files and transcribe them one by one.
   */
  method ProcessBatch(entries: seq<Entry>, append: bool, modelLoads: bool, env: Environment, out: OutputFile)
    returns (exitCode: nat)
    modifies out
    ensures RunResult(exitCode, out.content) == BatchOutcome(entries, append, modelLoads, env, old(out.content))
  {
    var exists_ := out.Exists();
    if exists_ && !append {
      out.Unlink();
    }
    var audioFiles := FindAudioFiles(entries);
    if audioFiles == [] {
      return 0;
    }
    if !modelLoads {
      return 1;
    }
    AppendBlocks(audioFiles, env, out);
    exitCode := 0;
  }

  /** One pass of the loop keeps its invariant. */
  lemma AppendStep(kept: Option<string>, before: Option<string>, after: Option<string>,
                   done: string, block: string, first: bool)
    requires first ==> before == kept && done == ""
    requires !first ==> before == Some(kept.GetOr("") + done)
    requires after == Some(if before.Some? then before.value + block else block)
    ensures after == Some(kept.GetOr("") + (done + block))
  {
    if first {
      assert done + block == block;
      if kept.None? {
        assert "" + block == block;
      }
    } else {
      var k := kept.GetOr("");
      assert (k + done) + block == k + (done + block);
    }
  }

  /** The loop of `main`: transcribes each file in turn and appends its block to the output. */
  method AppendBlocks(audioFiles: seq<Entry>, env: Environment, out: OutputFile)
    requires audioFiles != []
    modifies out
    ensures out.content == Some(old(out.content).GetOr("") + Blocks(audioFiles, env))
  {
    ghost var kept := out.content;
    var i := 0;
    while i < |audioFiles|
      invariant 0 <= i <= |audioFiles|
      invariant out.content == if i == 0 then kept else Some(kept.GetOr("") + Blocks(audioFiles[..i], env))
    {
      var relPath := audioFiles[i].relPath;
      var text := TranscribeFile(env.present(relPath), env.resolve(relPath), env.whisper(relPath));
      ghost var before := out.content;
      out.WriteTranscription(relPath, text, true);
      assert Block(relPath, text) == FileBlock(env, audioFiles[i]);
      BlocksStep(audioFiles, i, env);
      AppendStep(kept, before, out.content, Blocks(audioFiles[..i], env), FileBlock(env, audioFiles[i]), i == 0);
      i := i + 1;
    }
    assert audioFiles[..i] == audioFiles;
  }

  /** The script's `main`: the input-directory check, then the batch. */
  method MainWithInputCheck(inputExists: bool, entries: seq<Entry>, append: bool, modelLoads: bool,
                            env: Environment, out: OutputFile) returns (exitCode: nat)
    modifies out
    ensures RunResult(exitCode, out.content)
            == ScriptOutcome(inputExists, entries, append, modelLoads, env, old(out.content))
  {
    if !inputExists {
      return 1;
    }
    exitCode := ProcessBatch(entries, append, modelLoads, env, out);
  }

  /**
   * The root copy has no input-directory check; `rglob` on a missing
   * directory yields nothing, so the run ends with code 0 after the clean-up.
   */
  lemma RootCopyMissingInput(append: bool, modelLoads: bool, env: Environment, previous: Option<string>)
    ensures BatchOutcome([], append, modelLoads, env, previous) == RunResult(0, if append then previous else None)
  {
    assert KeepAudio([]) == [];
  }
}

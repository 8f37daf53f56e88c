/**
 * Language classification of changed files: the fixed extension table and
 * `FileCommitData.get_language`, which keys the table on the text after the
 * last `.` of a file name.
 */
module Languages {
  import opened Wrappers

  /** The extension table, exactly as the source lists it (keys are case-sensitive). */
  const EXTENSION_MAPPING: map<string, string> := map[
    "c"    := "C",
    "cpp"  := "C++",
    "hs"   := "Haskell",
    "java" := "Java",
    "js"   := "Javascript",
    "jsx"  := "Javascript",
    "py"   := "Python",
    "rust" := "Rust",
    "sql"  := "SQL"
  ]

  /** The language names the table can yield. */
  lemma LanguagesAre()
    ensures EXTENSION_MAPPING.Values
         == {"C", "C++", "Haskell", "Java", "Javascript", "Python", "Rust", "SQL"}
  {
    var expected := {"C", "C++", "Haskell", "Java", "Javascript", "Python", "Rust", "SQL"};
    assert EXTENSION_MAPPING["c"] == "C" && EXTENSION_MAPPING["cpp"] == "C++";
    assert EXTENSION_MAPPING["hs"] == "Haskell" && EXTENSION_MAPPING["java"] == "Java";
    assert EXTENSION_MAPPING["js"] == "Javascript" && EXTENSION_MAPPING["py"] == "Python";
    assert EXTENSION_MAPPING["rust"] == "Rust" && EXTENSION_MAPPING["sql"] == "SQL";
    assert expected <= EXTENSION_MAPPING.Values;
    assert EXTENSION_MAPPING.Values <= expected;
  }

  /**
   * Python's `s.split(sep)` for a one-character separator: the maximal
   * separator-free pieces of `s`, always at least one of them.
   */
  function Split(s: string, sep: char): (parts: seq<string>)
    ensures |parts| >= 1
    decreases |s|
  {
    if s == [] then [[]]
    else
      var rest := Split(s[1..], sep);
      if s[0] == sep then [[]] + rest
      else [[s[0]] + rest[0]] + rest[1..]
  }

  /** Python's `sep.join(parts)`, the inverse of `Split`. */
  function Join(parts: seq<string>, sep: char): (joined: string)
    requires |parts| >= 1
    decreases |parts|
  {
    if |parts| == 1 then parts[0] else parts[0] + [sep] + Join(parts[1..], sep)
  }

  /** Splitting loses nothing: joining the pieces back gives the original string. */
  lemma {:induction false} JoinSplit(s: string, sep: char)
    ensures Join(Split(s, sep), sep) == s
    decreases |s|
  {
    if s != [] {
      var rest := Split(s[1..], sep);
      JoinSplit(s[1..], sep);
      if s[0] == sep {
        assert Split(s, sep)[1..] == rest;
      } else {
        var parts := Split(s, sep);
        if |rest| > 1 {
          assert parts[1..] == rest[1..];
          assert Join(rest, sep) == rest[0] + [sep] + Join(rest[1..], sep);
        }
      }
    }
  }

  /** No piece of a split contains the separator. */
  lemma {:induction false} SplitPiecesAvoidSep(s: string, sep: char)
    ensures forall i :: 0 <= i < |Split(s, sep)| ==> sep !in Split(s, sep)[i]
    decreases |s|
  {
    if s != [] {
      SplitPiecesAvoidSep(s[1..], sep);
      var rest := Split(s[1..], sep);
      var parts := Split(s, sep);
      if s[0] == sep {
        assert forall i :: 1 <= i < |parts| ==> parts[i] == rest[i - 1];
      } else {
        assert forall i :: 1 <= i < |parts| ==> parts[i] == rest[i];
        assert sep !in rest[0];
      }
    }
  }

  /** Joining more than one piece puts a separator right before the last piece. */
  lemma {:induction false} JoinLast(parts: seq<string>, sep: char)
    requires |parts| >= 2
    ensures Join(parts, sep) == Join(parts[..|parts| - 1], sep) + [sep] + parts[|parts| - 1]
    decreases |parts|
  {
    if |parts| > 2 {
      JoinLast(parts[1..], sep);
      assert parts[1..][..|parts| - 2] == parts[..|parts| - 1][1..];
    }
  }

  /** `file_name.split('.')[-1]`: the key the source looks up. */
  function Extension(fileName: string): (ext: string) {
    var parts := Split(fileName, '.');
    parts[|parts| - 1]
  }

  /**
   * The extension is the suffix after the last `.`: it holds no `.`, and it
   * is either the whole name or is preceded by a `.`.
   */
  lemma ExtensionIsAfterLastDot(fileName: string)
    ensures var ext := Extension(fileName);
      && '.' !in ext
      && |ext| <= |fileName|
      && ext == fileName[|fileName| - |ext|..]
      && (|ext| < |fileName| ==> fileName[|fileName| - |ext| - 1] == '.')
  {
    var parts := Split(fileName, '.');
    JoinSplit(fileName, '.');
    SplitPiecesAvoidSep(fileName, '.');
    if |parts| >= 2 {
      JoinLast(parts, '.');
    }
  }

  /** With a `.` before a dot-free tail, the extension is exactly that tail. */
  lemma ExtensionOfDotted(stem: string, ext: string)
    requires '.' !in ext
    ensures Extension(stem + "." + ext) == ext
  {
    var name := stem + "." + ext;
    ExtensionIsAfterLastDot(name);
    assert name[|name| - |ext| - 1] == '.';
    assert name[|name| - |ext|..] == ext;
  }

  /** A name without any `.` is its own extension. */
  lemma ExtensionOfUndotted(name: string)
    requires '.' !in name
    ensures Extension(name) == name
  {
    ExtensionIsAfterLastDot(name);
  }

  /**
   * `get_language`: the table entry for the file's extension, or `None`
   * when the extension is not a key of the table.
   */
  function Language(fileName: string): (r: Option<string>)
    ensures r.Some? ==> r.value in EXTENSION_MAPPING.Values && r.value != ""
    ensures r.Some? <==> Extension(fileName) in EXTENSION_MAPPING
    ensures r.Some? ==> r.value == EXTENSION_MAPPING[Extension(fileName)]
  {
    var ext := Extension(fileName);
    if ext in EXTENSION_MAPPING then Some(EXTENSION_MAPPING[ext]) else None
  }

  /** A name with a `.` is looked up by the dot-free text after its last `.`. */
  lemma DottedName(stem: string, ext: string)
    requires '.' !in ext
    ensures Language(stem + "." + ext) == if ext in EXTENSION_MAPPING then Some(EXTENSION_MAPPING[ext]) else None
  {
    ExtensionOfDotted(stem, ext);
  }

  /**
   * Unmapped extensions, such as markup, give no language; nor does an
   * upper-case spelling of a mapped one, because the lookup is case-sensitive.
   */
  lemma UnmappedExtensionExamples(stem: string)
    ensures Language(stem + ".md") == None
    ensures Language(stem + ".PY") == None
  {
    ExtensionOfDotted(stem, "md");
    assert stem + "." + "md" == stem + ".md";
    ExtensionOfDotted(stem, "PY");
    assert stem + "." + "PY" == stem + ".PY";
  }

  /** `py` is Python; both `js` and `jsx` are Javascript. */
  lemma MappedExtensionExamples(stem: string)
    ensures Language(stem + ".py") == Some("Python")
    ensures Language(stem + ".js") == Some("Javascript")
    ensures Language(stem + ".jsx") == Some("Javascript")
  {
    ExtensionOfDotted(stem, "py");
    assert stem + "." + "py" == stem + ".py";
    ExtensionOfDotted(stem, "js");
    assert stem + "." + "js" == stem + ".js";
    ExtensionOfDotted(stem, "jsx");
    assert stem + "." + "jsx" == stem + ".jsx";
  }

  /** Only the text after the last `.` is looked up. */
  lemma LastDotExample(stem: string)
    ensures Language(stem + ".py.bak") == None
  {
    ExtensionOfDotted(stem + ".py", "bak");
    assert stem + ".py" + "." + "bak" == stem + ".py.bak";
  }

  /** A name without a `.` is looked up whole. */
  lemma UndottedName(name: string)
    requires '.' !in name
    ensures Language(name).Some? <==> name in EXTENSION_MAPPING
    ensures name in EXTENSION_MAPPING ==> Language(name) == Some(EXTENSION_MAPPING[name])
  {
    ExtensionOfUndotted(name);
  }

  /** A file named just `c` is C. */
  lemma UndottedExample()
    ensures Language("c") == Some("C")
  {
    ExtensionOfUndotted("c");
  }
}

// Classifying an interaction's subdivision path as a library import, a
// resource import or an unknown import (test_suite_creation.py,
// get_rf_import). The compiled regular expressions of `rfLibraryRegex` and
// `rfResourceRegex` are matchers returning the first group of a match.

module RobotImports {
  import opened Wrappers
  import opened Text

  datatype ImportType = LibraryImport | ResourceImport | UnknownImport

  /** `pattern.search(path)` with `match[1]`: the first group, when the pattern matches. */
  type Matcher = string -> Option<string>

  /** The configuration `get_rf_import` reads. */
  datatype ImportRules = ImportRules(
    libraryPatterns: seq<Matcher>,
    resourcePatterns: seq<Matcher>,
    rfLibraryRoots: seq<string>,
    rfResourceRoots: seq<string>)

  /** Python's `str.isspace` characters. */
  predicate IsSpace(c: char)
  {
    c == ' ' || ('\t' <= c <= '\r') || ('\U{1c}' <= c <= '\U{1f}') || c == '\U{85}' || c == '\U{a0}' ||
    c == '\U{1680}' || ('\U{2000}' <= c <= '\U{200a}') || c == '\U{2028}' || c == '\U{2029}' ||
    c == '\U{202f}' || c == '\U{205f}' || c == '\U{3000}'
  }

  function StripLeft(s: string): (r: string)
    ensures EndsWith(s, r)
    ensures r == [] || !IsSpace(r[0])
    ensures forall i :: 0 <= i < |s| - |r| ==> IsSpace(s[i])
  {
    if s != [] && IsSpace(s[0]) then StripLeft(s[1..]) else s
  }

  function StripRight(s: string): (r: string)
    ensures StartsWith(s, r)
    ensures r == [] || !IsSpace(r[|r| - 1])
    ensures forall i :: |r| <= i < |s| ==> IsSpace(s[i])
  {
    if s != [] && IsSpace(s[|s| - 1]) then StripRight(s[..|s| - 1]) else s
  }

  /** `str.strip()`: surrounding whitespace removed. */
  function Strip(s: string): (r: string)
    ensures r == [] || (!IsSpace(r[0]) && !IsSpace(r[|r| - 1]))
  {
    StripRight(StripLeft(s))
  }

  /** `str.split(".")`. */
  function Split(s: string, sep: char): (parts: seq<string>)
    ensures |parts| >= 1
    ensures forall p :: p in parts ==> sep !in p
    decreases |s|
  {
    var i := IndexOf(s, sep);
    if i < 0 then [s]
    else
      assert sep !in s[..i] by {
        assert forall j :: 0 <= j < i ==> s[..i][j] == s[j];
      }
      [s[..i]] + Split(s[i + 1..], sep)
  }

  function Join(parts: seq<string>, sep: char): string
    requires |parts| >= 1
  {
    if |parts| == 1 then parts[0] else parts[0] + [sep] + Join(parts[1..], sep)
  }

  /** Splitting loses nothing: joining the parts gives the text back. */
  lemma JoinOfSplit(s: string, sep: char)
    ensures Join(Split(s, sep), sep) == s
    ensures |Split(s, sep)| == 1 <==> sep !in s
  {
    JoinSplitRoundTrip(s, sep);
    SplitOnePartIffNoSeparator(s, sep);
  }

  lemma {:induction false} JoinSplitRoundTrip(s: string, sep: char)
    ensures Join(Split(s, sep), sep) == s
    decreases |s|
  {
    var i := IndexOf(s, sep);
    if i >= 0 {
      var first, rest := s[..i], s[i + 1..];
      JoinSplitRoundTrip(rest, sep);
      var parts := Split(s, sep);
      assert parts[0] == first && parts[1..] == Split(rest, sep);
      assert s == first + [sep] + rest;
    }
  }

  lemma SplitOnePartIffNoSeparator(s: string, sep: char)
    ensures |Split(s, sep)| == 1 <==> sep !in s
  {
    var i := IndexOf(s, sep);
    if i >= 0 {
      assert s[i] == sep;
      assert |Split(s[i + 1..], sep)| >= 1;
    }
  }

  /** The stripped first group of the first matcher that matches. */
  function FirstMatch(patterns: seq<Matcher>, path: string): (r: Option<string>)
    ensures r.None? <==> forall i :: 0 <= i < |patterns| ==> patterns[i](path).None?
    ensures r.Some? ==> r.value == [] || (!IsSpace(r.value[0]) && !IsSpace(r.value[|r.value| - 1]))
  {
    if patterns == [] then None
    else match patterns[0](path)
      case Some(g) => Some(Strip(g))
      case None => FirstMatch(patterns[1..], path)
  }

  /** No matcher matches exactly when there is no result; a result comes from the first matcher that matches. */
  lemma {:induction false} FirstMatchIsFirst(patterns: seq<Matcher>, path: string)
    ensures FirstMatch(patterns, path).None? <==> forall i :: 0 <= i < |patterns| ==> patterns[i](path).None?
    ensures FirstMatch(patterns, path).Some? ==>
              exists i :: 0 <= i < |patterns| && patterns[i](path).Some? &&
                FirstMatch(patterns, path).value == Strip(patterns[i](path).value) &&
                forall j :: 0 <= j < i ==> patterns[j](path).None?
    decreases |patterns|
  {
    if patterns != [] && patterns[0](path).None? {
      var rest := patterns[1..];
      FirstMatchIsFirst(rest, path);
      assert forall j :: 1 <= j < |patterns| ==> patterns[j] == rest[j - 1];
      if FirstMatch(rest, path).Some? {
        var i :| 0 <= i < |rest| && rest[i](path).Some? &&
                 FirstMatch(rest, path).value == Strip(rest[i](path).value) &&
                 forall j :: 0 <= j < i ==> rest[j](path).None?;
        assert patterns[i + 1] == rest[i];
      }
    }
  }

  /** `get_rf_import(subdivision_path)`: the import type and the name to import. */
  function GetRfImport(rules: ImportRules, path: string): (r: (ImportType, string))
    ensures FirstMatch(rules.libraryPatterns, path).Some? ==>
              r == (LibraryImport, FirstMatch(rules.libraryPatterns, path).value)
    ensures r.0 == ResourceImport ==> FirstMatch(rules.libraryPatterns, path).None?
    ensures FirstMatch(rules.libraryPatterns, path).None? && FirstMatch(rules.resourcePatterns, path).None? ==>
              '.' !in r.1
  {
    match FirstMatch(rules.libraryPatterns, path)
    case Some(name) => (LibraryImport, name)
    case None =>
      match FirstMatch(rules.resourcePatterns, path)
      case Some(name) => (ResourceImport, name)
      case None =>
        var parts := Split(path, '.');
        if |parts| == 1 then (UnknownImport, parts[0])
        else
          var root, library := parts[0], parts[1];
          if root in rules.rfLibraryRoots then (LibraryImport, library)
          else if root in rules.rfResourceRoots then (ResourceImport, library)
          else (UnknownImport, library)
  }

  /**
   * Library patterns are tried first and win; then resource patterns.
   * Without a match a path without "." is unknown and keeps its whole
   * text; otherwise the root segment decides, library roots before
   * resource roots, and the name is always the second segment.
   */
  lemma GetRfImportCases(rules: ImportRules, path: string)
    ensures var (kind, name) := GetRfImport(rules, path);
      (FirstMatch(rules.libraryPatterns, path).Some? ==>
         kind == LibraryImport && name == FirstMatch(rules.libraryPatterns, path).value) &&
      (FirstMatch(rules.libraryPatterns, path).None? && FirstMatch(rules.resourcePatterns, path).Some? ==>
         kind == ResourceImport && name == FirstMatch(rules.resourcePatterns, path).value) &&
      (FirstMatch(rules.libraryPatterns, path).None? && FirstMatch(rules.resourcePatterns, path).None? ==>
         ('.' !in path ==> kind == UnknownImport && name == path) &&
         ('.' in path ==>
            name == Split(path, '.')[1] && '.' !in name &&
            (kind == LibraryImport <==> Split(path, '.')[0] in rules.rfLibraryRoots) &&
            (kind == ResourceImport <==>
               Split(path, '.')[0] !in rules.rfLibraryRoots && Split(path, '.')[0] in rules.rfResourceRoots)))
  {
    JoinOfSplit(path, '.');
    if '.' in path {
      assert Split(path, '.')[1] in Split(path, '.');
    }
  }

  /** `rfLibraryRoots` and `rfResourceRoots` of the default configuration. */
  const DefaultLibraryRoots: seq<string> := ["Interactions", "RF-Library"]
  const DefaultResourceRoots: seq<string> := ["RF-Resource"]

  lemma SplitAfter(a: string, sep: char, b: string)
    requires sep !in a
    ensures Split(a + [sep] + b, sep) == [a] + Split(b, sep)
  {
    var s := a + [sep] + b;
    var i := IndexOf(s, sep);
    assert s[|a|] == sep;
    assert i == |a|;
    assert s[..i] == a;
    assert s[i + 1..] == b;
  }

  const DefaultRules: ImportRules := ImportRules([], [], DefaultLibraryRoots, DefaultResourceRoots)

  /** With the default roots and no patterns, "RF-Library.<name>" is a library import of `name` ... */
  lemma DefaultLibraryRoot(name: string)
    requires '.' !in name
    ensures GetRfImport(DefaultRules, "RF-Library." + name) == (LibraryImport, name)
  {
    var p := "RF-Library" + ['.'] + name;
    assert "RF-Library." + name == p;
    SplitAfter("RF-Library", '.', name);
    JoinOfSplit(name, '.');
  }

  /** ... so is "Interactions.<name>.<rest>", named by its second segment ... */
  lemma DefaultInteractionsRoot(name: string, tail: string)
    requires '.' !in name
    ensures GetRfImport(DefaultRules, "Interactions." + name + "." + tail) == (LibraryImport, name)
  {
    var p := "Interactions" + ['.'] + (name + ['.'] + tail);
    assert "Interactions." + name + "." + tail == p;
    SplitAfter("Interactions", '.', name + ['.'] + tail);
    SplitAfter(name, '.', tail);
  }

  /** ... "RF-Resource.<name>" a resource import of `name` ... */
  lemma DefaultResourceRoot(name: string)
    requires '.' !in name
    ensures GetRfImport(DefaultRules, "RF-Resource." + name) == (ResourceImport, name)
  {
    var p := "RF-Resource" + ['.'] + name;
    assert "RF-Resource." + name == p;
    SplitAfter("RF-Resource", '.', name);
    JoinOfSplit(name, '.');
  }

  /** ... and a path without "." an unknown import of the whole path. */
  lemma DefaultUnknownPath(name: string)
    requires '.' !in name
    ensures GetRfImport(DefaultRules, name) == (UnknownImport, name)
  {
    JoinOfSplit(name, '.');
  }
}

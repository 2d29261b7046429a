/**
 * The daemon's configuration reader (userhdhomerun/conf_inifile.cpp): an
 * INI-style file read line by line into a map from section to a map from
 * key to value. The file is given as its sequence of lines, as getline
 * delivers them (without the newline), or None when it cannot be opened.
 */
module IniFile {
  import opened Wrappers

  type Sections = map<string, map<string, string>>

  /** The characters strchr looks at: those before the first NUL. */
  function CPrefix(s: string): (p: string)
    ensures |p| <= |s| && p == s[..|p|]
    ensures forall i :: 0 <= i < |p| ==> p[i] != '\0'
    ensures |p| < |s| ==> s[|p|] == '\0'
  {
    if s == [] || s[0] == '\0' then [] else [s[0]] + CPrefix(s[1..])
  }

  /** strchr(line.c_str(), c) != NULL */
  predicate Has(line: string, c: char)
  {
    c in CPrefix(line)
  }

  /** What one line is taken to be. */
  datatype Line = Skip | Header(section: string) | Entry(key: string, value: string)

  /** The position of the first c in s, if any. */
  function Find(s: string, c: char): (r: Option<nat>)
    ensures r.None? <==> c !in s
    ensures r.Some? ==> r.value < |s| && s[r.value] == c && c !in s[..r.value]
  {
    if s == [] then None
    else if s[0] == c then Some(0)
    else
      var r := Find(s[1..], c);
      assert s[1..] == s[1..];
      if r.None? then None
      else
        assert s[..r.value + 1] == [s[0]] + s[1..][..r.value];
        Some(r.value + 1)
  }

  /**
   * The classification of OpenIniFile, tried in order: an empty line or
   * one with a '#' anywhere is ignored; one with a '[' names the section,
   * the line without its first and last character (`substr(1, size - 2)`,
   * which for a one-character line is empty); one with an '=' is a key,
   * the text before the first '=', and a value, everything after it.
   */
  function Classify(line: string): (l: Line)
    ensures line == [] || Has(line, '#') ==> l == Skip
    ensures line != [] && !Has(line, '#') && Has(line, '[') ==>
      l == Header(if |line| >= 2 then line[1..|line| - 1] else "")
    ensures line != [] && !Has(line, '#') && !Has(line, '[') && Has(line, '=') ==>
      l.Entry? && l.key + "=" + l.value == line && '=' !in l.key
    ensures line != [] && !Has(line, '#') && !Has(line, '[') && !Has(line, '=') ==> l == Skip
  {
    if line == [] || Has(line, '#') then Skip
    else if Has(line, '[') then Header(if |line| >= 2 then line[1..|line| - 1] else "")
    else if Has(line, '=') then
      var k := Find(line, '=').value;
      assert line == line[..k] + "=" + line[k + 1..];
      Entry(line[..k], line[k + 1..])
    else Skip
  }

  /** A map insert: an existing section is kept, an existing key keeps its
      value. */
  function Insert(m: Sections, section: string, key: string, value: string): (r: Sections)
    ensures section in r && key in r[section]
    ensures section in m && key in m[section] ==> r == m
    ensures forall s :: s in r <==> s in m || s == section
    ensures forall s, k :: s in m && k in m[s] ==> k in r[s] && r[s][k] == m[s][k]
    ensures forall s, k :: s in r && k in r[s] ==> (s in m && k in m[s]) || (s == section && k == key)
    ensures !(section in m && key in m[section]) ==> r[section][key] == value
  {
    if section in m then
      if key in m[section] then m else m[section := m[section][key := value]]
    else m[section := map[key := value]]
  }

  datatype Parsed = Parsed(sections: Sections, section: string)

  /** The map and the current section after the given lines; the section
      is "" before the first header. */
  function Parse(lines: seq<string>): (p: Parsed)
    decreases |lines|
  {
    if lines == [] then Parsed(map[], "")
    else Feed(Parse(lines[..|lines| - 1]), lines[|lines| - 1])
  }

  /** One line's effect on the map and the current section. */
  function Feed(p: Parsed, line: string): Parsed
  {
    match Classify(line)
    case Skip => p
    case Header(s) => Parsed(p.sections, s)
    case Entry(k, v) => Parsed(Insert(p.sections, p.section, k, v), p.section)
  }

  /** Reading one more line feeds it to what the earlier lines gave. */
  lemma ParseNext(lines: seq<string>, i: nat)
    requires i < |lines|
    ensures Parse(lines[..i + 1]) == Feed(Parse(lines[..i]), lines[i])
  {
    assert lines[..i + 1][..i] == lines[..i] && lines[..i + 1][i] == lines[i];
  }

  // ---------------------------------------------------------------------
  // A reference reading: the assignments in file order, first one wins
  // ---------------------------------------------------------------------

  datatype Assignment = Assignment(section: string, key: string, value: string)

  /** Every key/value line in file order, with the section it falls in. */
  function Assignments(lines: seq<string>): (a: seq<Assignment>)
    decreases |lines|
  {
    if lines == [] then []
    else
      var init := lines[..|lines| - 1];
      match Classify(lines[|lines| - 1])
      case Entry(k, v) => Assignments(init) + [Assignment(Parse(init).section, k, v)]
      case _ => Assignments(init)
  }

  /** The value of the first assignment to key in section. */
  function FirstValue(a: seq<Assignment>, section: string, key: string): (r: Option<string>)
    ensures r.None? <==> forall i :: 0 <= i < |a| ==> a[i].section != section || a[i].key != key
    ensures r.Some? ==> exists i :: 0 <= i < |a| && a[i] == Assignment(section, key, r.value)
                          && forall j :: 0 <= j < i ==> a[j].section != section || a[j].key != key
  {
    if a == [] then None
    else if a[0].section == section && a[0].key == key then Some(a[0].value)
    else
      var r := FirstValue(a[1..], section, key);
      assert forall i :: 1 <= i < |a| ==> a[i] == a[1..][i - 1];
      if r.Some? then
        var i :| 0 <= i < |a[1..]| && a[1..][i] == Assignment(section, key, r.value)
                 && forall j :: 0 <= j < i ==> a[1..][j].section != section || a[1..][j].key != key;
        assert a[i + 1] == Assignment(section, key, r.value);
        assert forall j :: 0 <= j < i + 1 ==> a[j].section != section || a[j].key != key;
        r
      else r
  }

  lemma {:induction false} FirstValueAppend(a: seq<Assignment>, x: Assignment, section: string, key: string)
    ensures FirstValue(a + [x], section, key) ==
      if FirstValue(a, section, key).Some? then FirstValue(a, section, key)
      else if x.section == section && x.key == key then Some(x.value)
      else None
  {
    if a == [] {
      assert [x][1..] == [];
    } else {
      assert (a + [x])[1..] == a[1..] + [x];
      FirstValueAppend(a[1..], x, section, key);
    }
  }

  /** What GetSecValue finds in a map. */
  function Lookup(m: Sections, section: string, key: string): Option<string>
  {
    if section in m && key in m[section] then Some(m[section][key]) else None
  }

  /** The map holds, for every section and key, exactly the value of the
      first assignment to it: a repeated key keeps its first value. */
  lemma {:induction false} ParseIsFirstAssignment(lines: seq<string>, section: string, key: string)
    ensures Lookup(Parse(lines).sections, section, key) == FirstValue(Assignments(lines), section, key)
    decreases |lines|
  {
    if lines != [] {
      var init := lines[..|lines| - 1];
      ParseIsFirstAssignment(init, section, key);
      match Classify(lines[|lines| - 1])
      case Skip =>
      case Header(_) =>
      case Entry(k, v) =>
        FirstValueAppend(Assignments(init), Assignment(Parse(init).section, k, v), section, key);
    }
  }

  /** A section is in the map exactly when some assignment falls in it. */
  lemma {:induction false} SectionsAreThoseAssigned(lines: seq<string>, section: string)
    ensures section in Parse(lines).sections <==>
      exists i :: 0 <= i < |Assignments(lines)| && Assignments(lines)[i].section == section
    decreases |lines|
  {
    if lines != [] {
      var init := lines[..|lines| - 1];
      SectionsAreThoseAssigned(init, section);
      match Classify(lines[|lines| - 1])
      case Skip =>
        assert Assignments(lines) == Assignments(init);
      case Header(_) =>
        assert Assignments(lines) == Assignments(init);
      case Entry(k, v) =>
        var a := Assignments(init);
        var x := Assignment(Parse(init).section, k, v);
        assert Assignments(lines) == a + [x];
        assert forall i :: 0 <= i < |a| ==> (a + [x])[i] == a[i];
        assert (a + [x])[|a|] == x;
    }
  }

  // ---------------------------------------------------------------------
  // The reader in place
  // ---------------------------------------------------------------------

  class ConfIniFile {
    /** m_sectionKeyValue */
    var sectionKeyValue: Sections

    constructor ()
      ensures sectionKeyValue == map[]
    {
      sectionKeyValue := map[];
    }

    /** OpenIniFile: the previous contents are dropped first, so a file
        that cannot be opened leaves the map empty. */
    method OpenIniFile(file: Option<seq<string>>) returns (ok: bool)
      modifies this
      ensures ok <==> file.Some?
      ensures sectionKeyValue == if file.Some? then Parse(file.value).sections else map[]
    {
      sectionKeyValue := map[];
      if file.None? {
        return false;
      }
      var lines := file.value;
      var section := "";
      var i := 0;
      while i < |lines|
        invariant 0 <= i <= |lines|
        invariant Parsed(sectionKeyValue, section) == Parse(lines[..i])
      {
        var line := lines[i];
        ParseNext(lines, i);
        match Classify(line) {
          case Skip =>
          case Header(s) =>
            section := s;
          case Entry(key, value) =>
            sectionKeyValue := Insert(sectionKeyValue, section, key, value);
        }
        i := i + 1;
      }
      assert lines[..i] == lines;
      return true;
    }

    /** GetSecValue: the value found, or `value` untouched. */
    method GetSecValue(section: string, key: string, value: string) returns (found: bool, valueOut: string)
      ensures found <==> section in sectionKeyValue && key in sectionKeyValue[section]
      ensures found ==> valueOut == sectionKeyValue[section][key]
      ensures !found ==> valueOut == value
    {
      valueOut := value;
      found := false;
      if section in sectionKeyValue {
        var keyVal := sectionKeyValue[section];
        if key in keyVal {
          valueOut := keyVal[key];
          found := true;
        }
      }
    }
  }

  /** A later line never changes a value already read: a repeated key
      keeps its first value. */
  lemma LaterLinesKeepValues(lines: seq<string>, line: string, section: string, key: string)
    requires Lookup(Parse(lines).sections, section, key).Some?
    ensures Lookup(Parse(lines + [line]).sections, section, key) == Lookup(Parse(lines).sections, section, key)
  {
    assert (lines + [line])[..|lines|] == lines;
  }

  /** A line with a '#' anywhere is ignored, whatever else it holds. */
  lemma CommentLinesAreIgnored(lines: seq<string>, line: string)
    requires Has(line, '#')
    ensures Parse(lines + [line]) == Parse(lines)
  {
    assert (lines + [line])[..|lines|] == lines;
  }
}

/** Which uploaded CSV columns become the roster's "ID" and "이름" columns. */
module Roster {
  import opened Wrappers

  /** `str.lower` on one character, for ASCII letters. */
  function LowerChar(c: char): char {
    if 'A' <= c <= 'Z' then (c as int + 32) as char else c
  }

  /** `str.lower` on a header name: no capital letter is left, each capital
      becomes its small letter, and every other character (Hangul included)
      is kept, so "학번" and "이름" lower-case to themselves. */
  function Lower(s: string): (r: string)
    ensures |r| == |s|
    ensures forall i :: 0 <= i < |r| ==> !('A' <= r[i] <= 'Z')
    ensures forall i :: 0 <= i < |s| && 'A' <= s[i] <= 'Z' ==> 'a' <= r[i] <= 'z' && r[i] as int == s[i] as int + 32
    ensures forall i :: 0 <= i < |s| && !('A' <= s[i] <= 'Z') ==> r[i] == s[i]
  {
    seq(|s|, i requires 0 <= i < |s| => LowerChar(s[i]))
  }

  /** `cols_lower.get(key)` for `cols_lower = {c.lower(): c for c in columns}`:
      a later column with the same lower-cased name overwrites an earlier one. */
  function LookupLower(cols: seq<string>, key: string): Option<string> {
    if cols == [] then None
    else if Lower(cols[|cols| - 1]) == key then Some(cols[|cols| - 1])
    else LookupLower(cols[..|cols| - 1], key)
  }

  /** The lookup finds nothing exactly when no column lower-cases to `key`. */
  lemma {:induction false} LookupLowerNone(cols: seq<string>, key: string)
    ensures LookupLower(cols, key).None? <==> forall i :: 0 <= i < |cols| ==> Lower(cols[i]) != key
  {
    if cols != [] && Lower(cols[|cols| - 1]) != key {
      var init := cols[..|cols| - 1];
      LookupLowerNone(init, key);
      assert forall i :: 0 <= i < |init| ==> init[i] == cols[i];
    }
  }

  /** A column found is a column whose lower-cased name is `key`. */
  lemma {:induction false} LookupLowerFound(cols: seq<string>, key: string)
    requires LookupLower(cols, key).Some?
    ensures LookupLower(cols, key).value in cols && Lower(LookupLower(cols, key).value) == key
  {
    if Lower(cols[|cols| - 1]) != key {
      LookupLowerFound(cols[..|cols| - 1], key);
    }
  }

  /** A column found is the last one that lower-cases to `key`. */
  lemma {:induction false} LookupLowerLast(cols: seq<string>, key: string)
    requires LookupLower(cols, key).Some?
    ensures exists j ::
      && 0 <= j < |cols| && cols[j] == LookupLower(cols, key).value && Lower(cols[j]) == key
      && forall l :: j < l < |cols| ==> Lower(cols[l]) != key
  {
    var c := LookupLower(cols, key).value;
    if Lower(cols[|cols| - 1]) == key {
      var j := |cols| - 1;
      assert cols[j] == c && Lower(cols[j]) == key;
    } else {
      var init := cols[..|cols| - 1];
      LookupLowerLast(init, key);
      var j :|
        && 0 <= j < |init| && init[j] == c && Lower(init[j]) == key
        && forall l :: j < l < |init| ==> Lower(init[l]) != key;
      assert cols[j] == init[j];
      forall l | j < l < |cols| ensures Lower(cols[l]) != key {
        if l < |cols| - 1 {
          assert cols[l] == init[l];
        }
      }
    }
  }

  predicate HasHeader(cols: seq<string>, key: string) {
    exists i :: 0 <= i < |cols| && Lower(cols[i]) == key
  }

  /** `id_col`: the "id" column, else "학번", else the first column; `None`
      where `list(df.columns)[0]` raises. */
  function IdColumn(cols: seq<string>): (r: Option<string>)
    ensures r.None? <==> cols == []
    ensures r.Some? ==> r.value in cols
    ensures HasHeader(cols, "id") ==> Lower(r.value) == "id"
    ensures !HasHeader(cols, "id") && HasHeader(cols, "학번") ==> Lower(r.value) == "학번"
    ensures !HasHeader(cols, "id") && !HasHeader(cols, "학번") && cols != [] ==> r == Some(cols[0])
  {
    LookupLowerNone(cols, "id");
    LookupLowerNone(cols, "학번");
    match LookupLower(cols, "id")
    case Some(c) => LookupLowerFound(cols, "id"); Some(c)
    case None =>
      match LookupLower(cols, "학번")
      case Some(c) => LookupLowerFound(cols, "학번"); Some(c)
      case None => if |cols| >= 1 then Some(cols[0]) else None
  }

  /** `name_col`: the "이름" column, else "name", else the second column;
      `None` where `list(df.columns)[1]` raises. */
  function NameColumn(cols: seq<string>): (r: Option<string>)
    ensures r.None? <==> !HasHeader(cols, "이름") && !HasHeader(cols, "name") && |cols| < 2
    ensures r.Some? ==> r.value in cols
    ensures HasHeader(cols, "이름") ==> Lower(r.value) == "이름"
    ensures !HasHeader(cols, "이름") && HasHeader(cols, "name") ==> Lower(r.value) == "name"
    ensures !HasHeader(cols, "이름") && !HasHeader(cols, "name") && |cols| >= 2 ==> r == Some(cols[1])
  {
    LookupLowerNone(cols, "이름");
    LookupLowerNone(cols, "name");
    match LookupLower(cols, "이름")
    case Some(c) => LookupLowerFound(cols, "이름"); Some(c)
    case None =>
      match LookupLower(cols, "name")
      case Some(c) => LookupLowerFound(cols, "name"); Some(c)
      case None => if |cols| >= 2 then Some(cols[1]) else None
  }

  /** The header of the sample roster resolves to its own two columns. */
  lemma SampleHeaderResolves()
    ensures IdColumn(["ID", "이름"]) == Some("ID")
    ensures NameColumn(["ID", "이름"]) == Some("이름")
  {
    assert Lower("ID") == "id";
    assert Lower("이름") == "이름";
  }
}

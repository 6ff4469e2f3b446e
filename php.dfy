/** The pieces of PHP's own semantics that the plugin's decisions depend on:
    falsy strings, truthiness of constants, `strtolower`, `strpos(...) !== false`
    `dirname` and the conversion of decimal array keys to integers. */
module Php {
  import opened Wrappers

  /** `empty($s)` and `!$s` for a string: the empty string and "0" are falsy. */
  predicate Empty(s: string) {
    s == "" || s == "0"
  }

  /** `empty($v)` for a value that may be null (a missing header, an unset parameter). */
  predicate EmptyOrNull(v: Option<string>) {
    v.None? || Empty(v.value)
  }

  /** The scalar values a PHP constant can hold. */
  datatype Value = Bool(b: bool) | Int(i: int) | Str(s: string)

  /** PHP truthiness of a scalar (what `if (CONST)` and `(bool) CONST` see). */
  predicate Truthy(v: Value) {
    match v
    case Bool(b) => b
    case Int(i) => i != 0
    case Str(s) => !Empty(s)
  }

  /** `defined('X') && X`: the constant is defined and truthy. */
  predicate DefinedAndTruthy(c: Option<Value>) {
    c.Some? && Truthy(c.value)
  }

  predicate IsDigit(c: char) {
    '0' <= c <= '9'
  }

  /** The number a string of decimal digits spells. */
  function DigitsValue(d: string): (n: nat)
    requires forall i :: 0 <= i < |d| ==> IsDigit(d[i])
    ensures |d| > 0 && d[0] != '0' ==> n > 0
  {
    if |d| == 0 then 0
    else
      var last := d[|d| - 1];
      assert IsDigit(last);
      assert |d| > 1 ==> d[..|d| - 1][0] == d[0];
      DigitsValue(d[..|d| - 1]) * 10 + (last as int - '0' as int)
  }

  /** A string that PHP turns into an integer when it is used as an array key:
      "0", or an optional "-" followed by a digit string without a leading zero,
      whose value lies in the 64-bit signed range. */
  predicate DecimalKey(s: string) {
    if s == "0" then true
    else
      var neg := |s| > 0 && s[0] == '-';
      var d := if neg then s[1..] else s;
      && |d| > 0 && '1' <= d[0] <= '9'
      && (forall i :: 0 <= i < |d| ==> IsDigit(d[i]))
      && (if neg then DigitsValue(d) <= 0x8000_0000_0000_0000 else DigitsValue(d) <= 0x7FFF_FFFF_FFFF_FFFF)
  }

  /** `strtolower` on one character (ASCII only, as PHP 8.2 and later do, and as earlier versions do in the C locale). */
  function LowerChar(c: char): char {
    if 'A' <= c <= 'Z' then (c as int + 32) as char else c
  }

  function Lower(s: string): (r: string)
    ensures |r| == |s|
    ensures forall i :: 0 <= i < |s| ==> r[i] == LowerChar(s[i])
  {
    seq(|s|, i requires 0 <= i < |s| => LowerChar(s[i]))
  }

  /** `strpos($s, $needle) !== false`: `needle` occurs somewhere in `s`. */
  predicate Contains(s: string, needle: string)
    decreases |s|
  {
    needle <= s || (|s| > 0 && Contains(s[1..], needle))
  }

  /** A slice of `s` equal to `needle` is exactly what `Contains` looks for. */
  lemma {:induction false} ContainsAt(s: string, needle: string, i: nat)
    requires i + |needle| <= |s| && s[i..i + |needle|] == needle
    ensures Contains(s, needle)
    decreases i
  {
    if i > 0 {
      assert s[1..][i - 1..i - 1 + |needle|] == s[i..i + |needle|];
      ContainsAt(s[1..], needle, i - 1);
    }
  }

  /** A needle longer than the haystack never occurs in it. */
  lemma {:induction false} NotContainsLonger(s: string, needle: string)
    requires |s| < |needle|
    ensures !Contains(s, needle)
    decreases |s|
  {
    if |s| > 0 {
      NotContainsLonger(s[1..], needle);
    }
  }

  predicate NoSlash(s: string) {
    forall i :: 0 <= i < |s| ==> s[i] != '/'
  }

  /** `s` with every trailing '/' removed. */
  function TrimTrailingSlashes(s: string): (r: string)
    ensures r <= s
    ensures r == "" || r[|r| - 1] != '/'
    ensures forall i :: |r| <= i < |s| ==> s[i] == '/'
    decreases |s|
  {
    if |s| > 0 && s[|s| - 1] == '/' then TrimTrailingSlashes(s[..|s| - 1]) else s
  }

  /** The index of the last '/' in `s`, if any. */
  function LastSlash(s: string): (r: Option<nat>)
    ensures r.Some? ==> r.value < |s| && s[r.value] == '/'
    ensures r.Some? ==> forall j :: r.value < j < |s| ==> s[j] != '/'
    ensures r.None? ==> NoSlash(s)
    decreases |s|
  {
    if s == [] then None
    else if s[|s| - 1] == '/' then Some(|s| - 1)
    else LastSlash(s[..|s| - 1])
  }

  /** PHP's `dirname` on a Unix path: "" stays "", a name without '/' gives ".",
      trailing slashes are ignored and the root is "/". */
  function Dirname(path: string): (dir: string) {
    if path == "" then ""
    else
      var t := TrimTrailingSlashes(path);
      if t == "" then "/"
      else match LastSlash(t)
        case None => "."
        case Some(i) =>
          var head := TrimTrailingSlashes(t[..i]);
          if head == "" then "/" else head
  }

  /** A plugin file `dir/file.php` (one level, as WordPress stores plugin paths)
      has `dir` as its directory name. */
  lemma DirnameOfPluginPath(dir: string, file: string)
    requires dir != "" && NoSlash(dir)
    requires file != "" && NoSlash(file)
    ensures Dirname(dir + "/" + file) == dir
  {
    var p := dir + "/" + file;
    assert p[|p| - 1] == file[|file| - 1];
    assert TrimTrailingSlashes(p) == p;
    var i := |dir|;
    assert p[i] == '/';
    assert forall j :: i < j < |p| ==> p[j] == file[j - i - 1];
    assert LastSlash(p) == Some(i) by {
      var r := LastSlash(p);
      if r.None? || r.value != i {
        assert false;
      }
    }
    assert p[..i] == dir;
    assert dir[|dir| - 1] != '/';
  }

  /** A bare file name (a single-file plugin such as `hello.php`) has directory ".". */
  lemma DirnameOfBareFile(file: string)
    requires file != "" && NoSlash(file)
    ensures Dirname(file) == "."
  {
    assert TrimTrailingSlashes(file) == file;
  }

  /** Year-named theme directories become integer keys; names with a leading
      zero, "-0" and ordinary names stay strings. */
  lemma DecimalKeyExamples()
    ensures DecimalKey("2024") && DecimalKey("0") && DecimalKey("-7")
    ensures !DecimalKey("0123") && !DecimalKey("-0") && !DecimalKey("") && !DecimalKey("astra")
  {
    var y := "2024";
    assert y[..3] == "202" && y[..3][..2] == "20" && y[..3][..2][..1] == "2";
    assert DigitsValue("2") == 2;
    assert DigitsValue(y) == 2024;
    assert DigitsValue("7") == 7;
  }
}

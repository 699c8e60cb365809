/** The parts of Python's `pathlib` that the dashboard watcher relies on:
    the final component's suffix and stem. A path is abstract: its parent
    directory, its final component and whether it names a regular file
    (the answer `Path.is_file()` would give at the moment of the event). */
module PathNames {

  datatype FsPath = FsPath(parent: string, name: string, isFile: bool)

  /** `name.rfind('.')`: the index of the last dot, or -1 when there is none. */
  function RFindDot(name: string): (i: int)
    ensures -1 <= i < |name|
    ensures i >= 0 ==> name[i] == '.'
    ensures forall j :: i < j < |name| ==> name[j] != '.'
  {
    if |name| == 0 then -1
    else if name[|name| - 1] == '.' then |name| - 1
    else RFindDot(name[..|name| - 1])
  }

  /** `PurePath.suffix`: from the last dot on, unless that dot leads the name
      or ends it. */
  function Suffix(name: string): string
  {
    var i := RFindDot(name);
    if 0 < i < |name| - 1 then name[i..] else ""
  }

  /** `PurePath.stem`: the name without its suffix. */
  function Stem(name: string): string
  {
    var i := RFindDot(name);
    if 0 < i < |name| - 1 then name[..i] else name
  }

  /** The stem and the suffix split the name. */
  lemma StemSuffixSplit(name: string)
    ensures Stem(name) + Suffix(name) == name
    ensures Suffix(name) == "" || (Suffix(name)[0] == '.' && |Stem(name)| > 0)
  {
  }

  /** A name that ends in `.py` after at least one other character has
      suffix `.py` and loses exactly those three characters as its stem,
      and no other name has suffix `.py`. */
  lemma {:induction false} PySuffix(name: string)
    ensures Suffix(name) == ".py" <==> |name| > 3 && name[|name| - 3..] == ".py"
    ensures Suffix(name) == ".py" ==> Stem(name) == name[..|name| - 3]
  {
    var n := |name|;
    if n > 3 && name[n - 3..] == ".py" {
      assert name[n - 1] == 'y' && name[n - 2] == 'p' && name[n - 3] == '.';
      var p := name[..n - 1];
      assert p[..|p| - 1] == name[..n - 2];
      assert RFindDot(name) == RFindDot(name[..n - 2]);
      assert name[..n - 2][n - 3] == '.';
      assert RFindDot(name) == n - 3;
    }
    if Suffix(name) == ".py" {
      var i := RFindDot(name);
      assert 0 < i < n - 1 && name[i..] == ".py";
      assert i == n - 3;
    }
  }
}

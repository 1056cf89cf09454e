/**
 * Paths inside the log folder, as the rotation task builds them: a canonical log file
 * `f`, its numbered copy `i.f`, or any other file the folder holds.  The folder prefix
 * (`log_path . '/'`) is common to every path and is left implicit.
 */
module Paths {

  datatype Path =
    | Base(name: string)                  // `f`
    | Numbered(index: int, name: string)  // `i.f`, with `i` written in decimal
    | Other(path: string)                 // any other file under the log folder

  /** The eight log files of the core that the task rotates, in the order it visits them. */
  const CoreLogFiles: seq<string> := [
    "deprecated.php",
    "error.php",
    "everything.php",
    "joomla_update.php",
    "upload.error.php",
    "jmodulehelper.log.php",
    "jcontroller.log.php",
    "indexer.php"
  ]

  function DigitChar(d: nat): char
    requires d < 10
  {
    (48 + d) as char
  }

  /** Decimal notation of a natural number, without leading zeros. */
  function Decimal(n: nat): string
  {
    if n < 10 then [DigitChar(n)] else Decimal(n / 10) + [DigitChar(n % 10)]
  }

  /** How string concatenation writes an integer: a minus sign for negatives, then decimal. */
  function IntToString(i: int): (r: string)
    ensures |r| >= 1
    ensures i >= 0 ==> IsDigit(r[0])
    ensures i < 0 ==> r[0] == '-'
  {
    if i < 0 then "-" + Decimal(-i) else DecimalShape(i); Decimal(i)
  }

  /** The file name a path stands for, relative to the log folder. */
  function Render(p: Path): (r: string)
    ensures p.Numbered? ==> |r| > |p.name| + 1 && r[|r| - |p.name|..] == p.name && r[|r| - |p.name| - 1] == '.'
  {
    match p
    case Base(f) => f
    case Numbered(i, f) => IntToString(i) + "." + f
    case Other(s) => s
  }

  /** A path that the rotation of some core log file can touch. */
  predicate IsCoreSlot(p: Path)
  {
    match p
    case Base(f) => f in CoreLogFiles
    case Numbered(_, f) => f in CoreLogFiles
    case Other(_) => false
  }

  /**
   * A path in canonical form: a slot of a core log file, or another file whose name is
   * not the name of any core slot.  Canonical paths name distinct files
   * (`CanonicalPathsDistinct`), so a folder keyed by canonical paths holds each file once.
   */
  ghost predicate Canonical(p: Path)
  {
    if p.Other? then forall q :: IsCoreSlot(q) ==> Render(q) != p.path else IsCoreSlot(p)
  }

  predicate IsDigit(c: char)
  {
    '0' <= c <= '9'
  }

  /** Decimal notation is non-empty, made of digits, and at least two long from ten on. */
  lemma {:induction false} DecimalShape(n: nat)
    ensures |Decimal(n)| >= 1
    ensures n >= 10 ==> |Decimal(n)| >= 2
    ensures IsDigit(Decimal(n)[0])
    ensures forall k :: 0 <= k < |Decimal(n)| ==> IsDigit(Decimal(n)[k])
  {
    if n >= 10 {
      DecimalShape(n / 10);
    }
  }

  /** Distinct numbers have distinct decimal notations. */
  lemma {:induction false} DecimalInjective(a: nat, b: nat)
    requires Decimal(a) == Decimal(b)
    ensures a == b
  {
    DecimalShape(a);
    DecimalShape(b);
    if a >= 10 && b >= 10 {
      var da, db := Decimal(a), Decimal(b);
      assert da[|da| - 1] == DigitChar(a % 10);
      assert db[|db| - 1] == DigitChar(b % 10);
      assert da[..|da| - 1] == Decimal(a / 10);
      assert db[..|db| - 1] == Decimal(b / 10);
      DecimalInjective(a / 10, b / 10);
    }
  }

  /** Distinct integers are written differently. */
  lemma IntToStringInjective(i: int, j: int)
    requires IntToString(i) == IntToString(j)
    ensures i == j
  {
    if i < 0 && j < 0 {
      assert Decimal(-i) == IntToString(i)[1..];
      assert Decimal(-j) == IntToString(j)[1..];
      DecimalInjective(-i, -j);
    } else if i >= 0 && j >= 0 {
      DecimalInjective(i, j);
    }
  }

  /** A written integer starts with a digit or a minus sign and holds no dot. */
  lemma IntToStringShape(i: int)
    ensures |IntToString(i)| >= 1
    ensures IsDigit(IntToString(i)[0]) || IntToString(i)[0] == '-'
    ensures forall k :: 0 <= k < |IntToString(i)| ==> IntToString(i)[k] != '.'
  {
    if i < 0 {
      DecimalShape(-i);
      assert forall k :: 1 <= k < |IntToString(i)| ==> IntToString(i)[k] == Decimal(-i)[k - 1];
    } else {
      DecimalShape(i);
    }
  }

  /** `i.f` and `j.g` name the same file only when `i == j` and `f == g`. */
  lemma NumberedRenderInjective(i: int, f: string, j: int, g: string)
    requires Render(Numbered(i, f)) == Render(Numbered(j, g))
    ensures i == j && f == g
  {
    var x, y := IntToString(i), IntToString(j);
    var s := x + "." + f;
    assert s == y + "." + g;
    IntToStringShape(i);
    IntToStringShape(j);
    // the first dot of the name ends the written index
    assert |x| == |y| by {
      assert s[|x|] == '.';
      assert (y + "." + g)[|y|] == '.';
    }
    assert x == s[..|x|] == y;
    assert f == s[|x| + 1..] == g;
    IntToStringInjective(i, j);
  }

  /** Every core log file name starts with a lower-case letter. */
  lemma CoreNamesStartWithLetter()
    ensures forall f :: f in CoreLogFiles ==> |f| > 0 && 'a' <= f[0] <= 'z'
  {
  }

  /**
   * The slots of the core log files never collide: two core slots that name the same
   * file are the same slot, so a rotation of one name cannot touch another's chain.
   */
  lemma CoreSlotsDistinct(p: Path, q: Path)
    requires IsCoreSlot(p) && IsCoreSlot(q)
    requires Render(p) == Render(q)
    ensures p == q
  {
    CoreNamesStartWithLetter();
    if p.Numbered? && q.Numbered? {
      NumberedRenderInjective(p.index, p.name, q.index, q.name);
    } else if p.Numbered? && q.Base? {
      IntToStringShape(p.index);
    } else if p.Base? && q.Numbered? {
      IntToStringShape(q.index);
    }
  }

  /** Two canonical paths that name the same file are the same path. */
  lemma CanonicalPathsDistinct(p: Path, q: Path)
    requires Canonical(p) && Canonical(q)
    requires Render(p) == Render(q)
    ensures p == q
  {
    if !p.Other? && !q.Other? {
      CoreSlotsDistinct(p, q);
    }
  }
}

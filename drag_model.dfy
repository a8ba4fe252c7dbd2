/**
 * Mach-dependent drag coefficients (src/dynamics/forces/drag/DragModel.h and
 * DragModel.cpp): a tabulated curve read from a data file, the standard G-curve
 * models that load one, and the constant custom model.
 */
module DragModels {
  import opened Wrappers
  import opened Algorithms
  import Constants

  /** The standard ballistic curve families, plus CUSTOM. */
  datatype DragCurveModel = G1 | G2 | G5 | G6 | G7 | G8 | GL | CUSTOM

  /** `DRAG_DATA_DIR`, the default data directory of the curve files. */
  const DRAG_DATA_DIR: string := "assets/data/drag"

  /** `DRAG_CURVE_PATH(file)`: the directory, a slash and the file name. */
  function CurvePath(file: string): string {
    DRAG_DATA_DIR + "/" + file
  }

  /** `StandardDragModel::getModelFilename`: the data file of each standard curve, "" for CUSTOM. */
  function ModelFilename(model: DragCurveModel): (path: string)
    ensures model == CUSTOM <==> path == ""
  {
    match model
    case G1 => CurvePath("g1.txt")
    case G2 => CurvePath("g2.txt")
    case G5 => CurvePath("g5.txt")
    case G6 => CurvePath("g6.txt")
    case G7 => CurvePath("g7.txt")
    case G8 => CurvePath("g8.txt")
    case GL => CurvePath("gl.txt")
    case CUSTOM => ""
  }

  /** Distinct curve families read distinct files. */
  lemma ModelFilenameInjective(a: DragCurveModel, b: DragCurveModel)
    ensures ModelFilename(a) == ModelFilename(b) ==> a == b
  {
    if a != b && a != CUSTOM && b != CUSTOM {
      // the character after "assets/data/drag/g" tells the files apart
      assert ModelFilename(a)[18] != ModelFilename(b)[18];
    }
  }

  // ---------------------------------------------------------------------------
  // Data files

  /**
   * One line of a curve file. `text` is the line as read; `fields` is what
   * extracting two floats from it with `>>` yields (None when extraction fails).
   */
  datatype DataLine = DataLine(text: string, fields: Option<(real, real)>)

  /** Empty lines and lines starting with '#' are skipped before parsing. */
  predicate Skipped(line: DataLine) {
    |line.text| == 0 || line.text[0] == '#'
  }

  /** The (Mach, Cd) pairs that a file's lines contribute, in order. */
  function LoadedTable(lines: seq<DataLine>): (table: seq<(real, real)>)
    ensures |table| <= |lines|
  {
    if |lines| == 0 then []
    else
      var last := lines[|lines| - 1];
      LoadedTable(lines[..|lines| - 1])
      + (if !Skipped(last) && last.fields.Some? then [last.fields.value] else [])
  }

  /** The Mach column of a table. */
  function Machs(table: seq<(real, real)>): (m: seq<real>)
    ensures |m| == |table|
    ensures forall i :: 0 <= i < |table| ==> m[i] == table[i].0
  {
    seq(|table|, i requires 0 <= i < |table| => table[i].0)
  }

  /** The Cd column of a table. */
  function Cds(table: seq<(real, real)>): (cd: seq<real>)
    ensures |cd| == |table|
    ensures forall i :: 0 <= i < |table| ==> cd[i] == table[i].1
  {
    seq(|table|, i requires 0 <= i < |table| => table[i].1)
  }

  /** Splitting a table into columns commutes with appending rows, as the paired `push_back`s do. */
  lemma ColumnsAppend(a: seq<(real, real)>, b: seq<(real, real)>)
    ensures Machs(a + b) == Machs(a) + Machs(b)
    ensures Cds(a + b) == Cds(a) + Cds(b)
  {
  }

  /** The two parallel columns together determine the table: nothing is lost by splitting it. */
  lemma ColumnsDetermineTable(t: seq<(real, real)>, u: seq<(real, real)>)
    requires Machs(t) == Machs(u) && Cds(t) == Cds(u)
    ensures t == u
  {
    forall i | 0 <= i < |t|
      ensures t[i] == u[i]
    {
      assert Machs(t)[i] == Machs(u)[i] && Cds(t)[i] == Cds(u)[i];
    }
  }

  /** Reading two files one after the other yields the two tables concatenated. */
  lemma {:induction false} LoadedTableAppend(a: seq<DataLine>, b: seq<DataLine>)
    ensures LoadedTable(a + b) == LoadedTable(a) + LoadedTable(b)
    decreases |b|
  {
    if |b| == 0 {
      assert a + b == a;
    } else {
      var b' := b[..|b| - 1];
      assert (a + b)[..|a + b| - 1] == a + b';
      assert (a + b)[|a + b| - 1] == b[|b| - 1];
      LoadedTableAppend(a, b');
    }
  }

  /** An empty or comment line anywhere in a file contributes nothing. */
  lemma SkippedLineIgnored(a: seq<DataLine>, line: DataLine, b: seq<DataLine>)
    requires Skipped(line)
    ensures LoadedTable(a + [line] + b) == LoadedTable(a + b)
  {
    LoadedTableAppend(a + [line], b);
    LoadedTableAppend(a, [line]);
    LoadedTableAppend(a, b);
    assert [line][..0] == [];
  }

  /** A line that parses and is not skipped adds exactly its pair at the end. */
  lemma ParsedLineAppends(a: seq<DataLine>, text: string, mach: real, cd: real)
    requires |text| > 0 && text[0] != '#'
    ensures LoadedTable(a + [DataLine(text, Some((mach, cd)))]) == LoadedTable(a) + [(mach, cd)]
  {
    var l := DataLine(text, Some((mach, cd)));
    assert (a + [l])[..|a + [l]| - 1] == a;
  }

  // ---------------------------------------------------------------------------
  // Interpolation

  /**
   * The index `i` where the lookup loop of `DragCurve::getCd` stops when it
   * starts from `from`: the first `i` whose successor is not below `mach`.
   */
  function Bracket(m: seq<real>, mach: real, from: nat): (i: nat)
    requires from < |m| - 1 && mach <= m[|m| - 1]
    ensures from <= i < |m| - 1
    ensures mach <= m[i + 1]
    ensures forall j :: from < j <= i ==> m[j] < mach
    decreases |m| - from
  {
    if m[from + 1] < mach then Bracket(m, mach, from + 1) else from
  }

  /**
   * The drag coefficient a curve gives at `mach`: the default sphere value for an
   * empty curve, the first or last value outside the tabulated range, and the
   * linear interpolation between the two surrounding points inside it.
   */
  function CurveCd(m: seq<real>, cd: seq<real>, mach: real): real
    requires |m| == |cd|
  {
    if |m| == 0 then Constants.DEFAULT_SPHERE_CD
    else if mach <= m[0] then cd[0]
    else if mach >= m[|m| - 1] then cd[|cd| - 1]
    else
      var i := Bracket(m, mach, 0);
      Lerp(cd[i], cd[i + 1], (mach - m[i]) / (m[i + 1] - m[i]))
  }

  /** Inside the table, the two surrounding points really surround `mach`. */
  lemma BracketSurrounds(m: seq<real>, mach: real)
    requires |m| >= 2 && m[0] < mach < m[|m| - 1]
    ensures var i := Bracket(m, mach, 0); m[i] < mach <= m[i + 1]
  {
  }

  lemma FractionInUnit(a: real, b: real)
    requires 0.0 < a <= b
    ensures 0.0 < a / b <= 1.0
  {
    var t := a / b;
    assert t * b == a;

  }

  /**
   * Interpolation never leaves the range of the tabulated coefficients: if every
   * Cd in the curve lies in [lo, hi], so does the value at any Mach number.
   */
  lemma CurveCdBounded(m: seq<real>, cd: seq<real>, mach: real, lo: real, hi: real)
    requires |m| == |cd| && |m| > 0
    requires forall j :: 0 <= j < |cd| ==> lo <= cd[j] <= hi
    ensures lo <= CurveCd(m, cd, mach) <= hi
  {
    if mach <= m[0] || mach >= m[|m| - 1] {
      assert cd[|cd| - 1] == cd[|cd| - 1];
    } else {
      var i := Bracket(m, mach, 0);
      BracketSurrounds(m, mach);
      FractionInUnit(mach - m[i], m[i + 1] - m[i]);
      LerpBetween(cd[i], cd[i + 1], (mach - m[i]) / (m[i + 1] - m[i]));
    }
  }

  lemma DivSelf(d: real)
    requires d != 0.0
    ensures d / d == 1.0
  {
  }

  predicate StrictlyIncreasing(m: seq<real>) {
    forall j, k :: 0 <= j < k < |m| ==> m[j] < m[k]
  }

  /** On a curve with strictly increasing Mach numbers, every tabulated point is reproduced exactly. */
  lemma CurveCdAtKnot(m: seq<real>, cd: seq<real>, k: nat)
    requires |m| == |cd| && k < |m|
    requires StrictlyIncreasing(m)
    ensures CurveCd(m, cd, m[k]) == cd[k]
  {
    var mach := m[k];
    if k == 0 || k == |m| - 1 {
    } else {
      assert m[0] < mach < m[|m| - 1];
      var i := Bracket(m, mach, 0);
      assert i == k - 1;
      var d := m[i + 1] - m[i];
      assert mach - m[i] == d && d > 0.0;
      DivSelf(d);
      LerpEndpoints(cd[i], cd[i + 1]);
    }
  }

  /** Halfway between two tabulated points, the value is halfway between their coefficients. */
  lemma CurveCdExample()
    ensures CurveCd([1.0, 2.0], [0.30, 0.20], 1.5) == 0.25
    ensures CurveCd([1.0, 2.0], [0.30, 0.20], 0.5) == 0.30
    ensures CurveCd([1.0, 2.0], [0.30, 0.20], 3.0) == 0.20
    ensures CurveCd([], [], 1.5) == 0.47
  {
    assert Bracket([1.0, 2.0], 1.5, 0) == 0;
  }

  // ---------------------------------------------------------------------------
  // The curve object

  /** `DragCurve`: the Mach column and the Cd column of a loaded table. */
  class DragCurve {
    var machNumbers: seq<real>
    var dragCoefficients: seq<real>

    ghost predicate Valid()
      reads this
    {
      |machNumbers| == |dragCoefficients|
    }

    /** A curve that has not loaded anything: both columns empty. */
    constructor ()
      ensures Valid()
      ensures machNumbers == [] && dragCoefficients == []
    {
      machNumbers := [];
      dragCoefficients := [];
    }

    /**
     * `loadFromFile`: `file` is None when the file cannot be opened, which leaves
     * the curve as it was; otherwise both columns are replaced by the file's table.
     * The result says whether the curve is non-empty.
     */
    method LoadFromFile(file: Option<seq<DataLine>>) returns (loaded: bool)
      modifies this
      ensures file.None? ==> !loaded && machNumbers == old(machNumbers) && dragCoefficients == old(dragCoefficients)
      ensures file.Some? ==>
        && machNumbers == Machs(LoadedTable(file.value))
        && dragCoefficients == Cds(LoadedTable(file.value))
        && (loaded <==> |LoadedTable(file.value)| > 0)
      ensures file.Some? ==> Valid()
    {
      if file.None? {
        return false;
      }
      var lines := file.value;
      machNumbers := [];
      dragCoefficients := [];
      var n := 0;
      while n < |lines|
        invariant 0 <= n <= |lines|
        invariant machNumbers == Machs(LoadedTable(lines[..n]))
        invariant dragCoefficients == Cds(LoadedTable(lines[..n]))
      {
        var line := lines[n];
        assert lines[..n + 1][..n] == lines[..n];
        if !Skipped(line) && line.fields.Some? {
          machNumbers := machNumbers + [line.fields.value.0];
          dragCoefficients := dragCoefficients + [line.fields.value.1];
        }
        n := n + 1;
      }
      assert lines[..n] == lines;
      loaded := |machNumbers| > 0;
    }

    /** `findClosestIndex`: the first index whose Mach number is nearest to `mach`; 0 for an empty curve. */
    method FindClosestIndex(mach: real) returns (idx: nat)
      ensures |machNumbers| == 0 ==> idx == 0
      ensures |machNumbers| > 0 ==> idx < |machNumbers|
      ensures |machNumbers| > 0 ==> forall j :: 0 <= j < |machNumbers| ==>
        Abs(machNumbers[idx] - mach) <= Abs(machNumbers[j] - mach)
      ensures |machNumbers| > 0 ==> forall j :: 0 <= j < idx ==>
        Abs(machNumbers[j] - mach) > Abs(machNumbers[idx] - mach)
    {
      if |machNumbers| == 0 {
        return 0;
      }
      idx := 0;
      var minDiff := Abs(machNumbers[0] - mach);
      for i := 1 to |machNumbers|
        invariant idx < i
        invariant minDiff == Abs(machNumbers[idx] - mach)
        invariant forall j :: 0 <= j < i ==> minDiff <= Abs(machNumbers[j] - mach)
        invariant forall j :: 0 <= j < idx ==> Abs(machNumbers[j] - mach) > minDiff
      {
        var diff := Abs(machNumbers[i] - mach);
        if diff < minDiff {
          minDiff := diff;
          idx := i;
        }
      }
    }

    /** `getCd`: clamping outside the table, linear interpolation inside it. */
    method GetCd(mach: real) returns (cd: real)
      requires Valid()
      ensures cd == CurveCd(machNumbers, dragCoefficients, mach)
    {
      var m := machNumbers;
      if |m| == 0 {
        return Constants.DEFAULT_SPHERE_CD;
      }
      if mach <= m[0] {
        return dragCoefficients[0];
      }
      if mach >= m[|m| - 1] {
        return dragCoefficients[|m| - 1];
      }
      var i := 0;
      while i < |m| - 1 && m[i + 1] < mach
        invariant 0 <= i < |m| - 1
        invariant Bracket(m, mach, i) == Bracket(m, mach, 0)
        decreases |m| - i
      {
        i := i + 1;
      }
      BracketSurrounds(m, mach);
      var mach1, mach2 := m[i], m[i + 1];
      var cd1, cd2 := dragCoefficients[i], dragCoefficients[i + 1];
      var t := (mach - mach1) / (mach2 - mach1);
      cd := Lerp(cd1, cd2, t);
    }

    /**
     * `getCdNearest`: the coefficient of the nearest tabulated Mach number (the
     * first one on a tie). The source indexes the Cd column without a check, so
     * the curve must not be empty.
     */
    method GetCdNearest(mach: real) returns (cd: real)
      requires Valid() && |machNumbers| > 0
      ensures exists k :: (&& 0 <= k < |machNumbers| && cd == dragCoefficients[k]
                           && (forall j :: 0 <= j < |machNumbers| ==> Abs(machNumbers[k] - mach) <= Abs(machNumbers[j] - mach))
                           && (forall j :: 0 <= j < k ==> Abs(machNumbers[j] - mach) > Abs(machNumbers[k] - mach)))
    {
      var idx := FindClosestIndex(mach);
      cd := dragCoefficients[idx];
    }
  }

  // ---------------------------------------------------------------------------
  // Models

  /**
   * `IDragModel`: a standard model holds the curve it loaded (as a table of
   * (Mach, Cd) pairs); a custom model holds one constant coefficient.
   */
  datatype MachDragModel =
    | StandardDragModel(model: DragCurveModel, table: seq<(real, real)>)
    | CustomDragModel(customCd: real)
  {
    /** `getCd(mach)` */
    function GetCd(mach: real): real {
      match this
      case StandardDragModel(_, table) => CurveCd(Machs(table), Cds(table), mach)
      case CustomDragModel(cd) => cd
    }
  }

  /**
   * The `StandardDragModel(model)` constructor: `files` maps the paths that can be
   * opened to their lines. A file that does not open leaves the curve empty.
   */
  function NewStandardDragModel(model: DragCurveModel, files: map<string, seq<DataLine>>): (r: MachDragModel)
    ensures r.StandardDragModel? && r.model == model
    ensures ModelFilename(model) !in files ==> r.table == []
  {
    var path := ModelFilename(model);
    StandardDragModel(model, if path in files then LoadedTable(files[path]) else [])
  }

  /** A custom model's coefficient does not depend on the Mach number. */
  lemma CustomModelConstant(cd: real, mach: real)
    ensures CustomDragModel(cd).GetCd(mach) == CustomDragModel(cd).customCd == cd
  {
  }

  /**
   * A standard model whose curve could not be loaded (CUSTOM names no file) falls
   * back to the default sphere coefficient at every Mach number.
   */
  lemma StandardModelFallback(model: DragCurveModel, files: map<string, seq<DataLine>>, mach: real)
    requires ModelFilename(model) !in files
    ensures NewStandardDragModel(model, files).GetCd(mach) == Constants.DEFAULT_SPHERE_CD
  {
  }

  /** A loaded standard model gives values within the range of its file's coefficients. */
  lemma StandardModelBounded(model: DragCurveModel, files: map<string, seq<DataLine>>, mach: real, lo: real, hi: real)
    requires ModelFilename(model) in files
    requires var t := LoadedTable(files[ModelFilename(model)]);
      |t| > 0 && forall j :: 0 <= j < |t| ==> lo <= t[j].1 <= hi
    ensures lo <= NewStandardDragModel(model, files).GetCd(mach) <= hi
  {
    var t := LoadedTable(files[ModelFilename(model)]);
    CurveCdBounded(Machs(t), Cds(t), mach, lo, hi);
  }
}

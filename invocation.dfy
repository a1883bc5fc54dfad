/** The part of `run_msms` that runs before the surface program is started:
    the shape checks on the atom coordinates and radii, the `xyzr` rows that
    are written to the input file, and the program's argument list. */
module Invocation {
  import opened Wrappers

  /** An array as `np.asarray` leaves it: its shape and its elements in
      row-major order. */
  datatype NdArray<T> = NdArray(shape: seq<nat>, flat: seq<T>)

  function Product(dims: seq<nat>): nat {
    if dims == [] then 1 else dims[0] * Product(dims[1..])
  }

  /** An array holds exactly as many elements as its shape says. */
  predicate WellFormed<T>(a: NdArray<T>) {
    |a.flat| == Product(a.shape)
  }

  /** The two `ValueError`s of the shape checks. */
  datatype ShapeError =
    | XyzShape(shape: seq<nat>)                  // xyz is not an N-by-3 array
    | RadiiShape(expected: nat, shape: seq<nat>)  // radii is not a vector of length N; carries the shape found

  /** `xyz.shape == (N, 3)` for some N. */
  predicate IsCoordinateArray<T>(xyz: NdArray<T>) {
    |xyz.shape| == 2 && xyz.shape[1] == 3
  }

  lemma CoordinateArraySize<T>(xyz: NdArray<T>)
    requires WellFormed(xyz) && IsCoordinateArray(xyz)
    ensures |xyz.flat| == 3 * xyz.shape[0]
  {
    var s := xyz.shape;
    assert s[1..][1..] == [];
    assert Product(s[1..]) == s[1] * Product(s[1..][1..]);
  }

  /** The shape checks and `np.hstack([xyz, radii[:, np.newaxis]])`: row `i`
      is atom `i`'s three coordinates followed by its radius. The check on
      `xyz` comes first. */
  function XyzrRows<T>(xyz: NdArray<T>, radii: NdArray<T>): (r: Result<seq<seq<T>>, ShapeError>)
    requires WellFormed(xyz) && WellFormed(radii)
    ensures !IsCoordinateArray(xyz) <==> r == Err(XyzShape(xyz.shape))
    ensures IsCoordinateArray(xyz) ==>
      (radii.shape != [xyz.shape[0]] <==> r == Err(RadiiShape(xyz.shape[0], radii.shape)))
    ensures r.Ok? <==> IsCoordinateArray(xyz) && radii.shape == [xyz.shape[0]]
    ensures r.Ok? ==> |r.value| == xyz.shape[0] == |radii.flat| && |xyz.flat| == 3 * |r.value|
    ensures r.Ok? ==> forall i :: 0 <= i < |r.value| ==>
      && |r.value[i]| == 4
      && r.value[i][0] == xyz.flat[3 * i]
      && r.value[i][1] == xyz.flat[3 * i + 1]
      && r.value[i][2] == xyz.flat[3 * i + 2]
      && r.value[i][3] == radii.flat[i]
  {
    if !IsCoordinateArray(xyz) then Err(XyzShape(xyz.shape))
    else if radii.shape != [xyz.shape[0]] then Err(RadiiShape(xyz.shape[0], radii.shape))
    else
      CoordinateArraySize(xyz);
      assert Product(radii.shape) == xyz.shape[0] * Product([]);
      var n := xyz.shape[0];
      Ok(seq(n, i requires 0 <= i < n => xyz.flat[3 * i..3 * i + 3] + [radii.flat[i]]))
  }

  /** The first three columns of the rows, row after row. */
  function CoordinateColumns<T>(rows: seq<seq<T>>): seq<T>
    requires forall i :: 0 <= i < |rows| ==> |rows[i]| == 4
  {
    if rows == [] then []
    else CoordinateColumns(rows[..|rows| - 1]) + rows[|rows| - 1][..3]
  }

  /** The last column of the rows. */
  function RadiusColumn<T>(rows: seq<seq<T>>): seq<T>
    requires forall i :: 0 <= i < |rows| ==> |rows[i]| == 4
  {
    if rows == [] then [] else RadiusColumn(rows[..|rows| - 1]) + [rows[|rows| - 1][3]]
  }

  lemma {:induction false} ColumnsOfPrefix<T>(rows: seq<seq<T>>, xyz: seq<T>, radii: seq<T>, k: nat)
    requires k <= |rows| && |xyz| == 3 * |rows| && |radii| == |rows|
    requires forall i :: 0 <= i < |rows| ==>
      |rows[i]| == 4 && rows[i][..3] == xyz[3 * i..3 * i + 3] && rows[i][3] == radii[i]
    ensures CoordinateColumns(rows[..k]) == xyz[..3 * k]
    ensures RadiusColumn(rows[..k]) == radii[..k]
  {
    if k > 0 {
      ColumnsOfPrefix(rows, xyz, radii, k - 1);
      assert rows[..k][..k - 1] == rows[..k - 1];
      assert xyz[..3 * k] == xyz[..3 * (k - 1)] + xyz[3 * (k - 1)..3 * k];
      assert radii[..k] == radii[..k - 1] + [radii[k - 1]];
    }
  }

  /** Nothing is lost in the `xyzr` rows: their first three columns give
      back the coordinates and their last column the radii. */
  lemma XyzrRowsRoundTrip<T>(xyz: NdArray<T>, radii: NdArray<T>)
    requires WellFormed(xyz) && WellFormed(radii)
    requires XyzrRows(xyz, radii).Ok?
    ensures CoordinateColumns(XyzrRows(xyz, radii).value) == xyz.flat
    ensures RadiusColumn(XyzrRows(xyz, radii).value) == radii.flat
  {
    var rows := XyzrRows(xyz, radii).value;
    CoordinateArraySize(xyz);
    forall i | 0 <= i < |rows| ensures rows[i][..3] == xyz.flat[3 * i..3 * i + 3] {
      assert rows[i][..3] == [rows[i][0], rows[i][1], rows[i][2]];
    }
    ColumnsOfPrefix(rows, xyz.flat, radii.flat, |rows|);
    assert rows[..|rows|] == rows;
  }

  /** `os.path.join(directory, name)` on POSIX. */
  function JoinPath(directory: string, name: string): (p: string)
    ensures name != [] && name[0] == '/' ==> p == name
    ensures !(name != [] && name[0] == '/') ==> |p| >= |directory| + |name|
    ensures !(name != [] && name[0] == '/') ==>
      p[..|directory|] == directory && p[|p| - |name|..] == name
    ensures !(name != [] && name[0] == '/') && directory != [] && directory[|directory| - 1] != '/' ==>
      p == directory + "/" + name
    ensures !(name != [] && name[0] == '/') && (directory == [] || directory[|directory| - 1] == '/') ==>
      p == directory + name
  {
    if name != [] && name[0] == '/' then name
    else if directory == [] || directory[|directory| - 1] == '/' then directory + name
    else directory + "/" + name
  }

  /** One keyword argument `key=value`, both already turned into text by `str`. */
  datatype Kwarg = Kwarg(key: string, value: string)

  /** The keyword arguments as program options: `-key value` for each, in
      insertion order. */
  function FlatKwargs(kwargs: seq<Kwarg>): (flat: seq<string>)
    ensures |flat| == 2 * |kwargs|
    ensures forall i :: 0 <= i < |kwargs| ==>
      flat[2 * i] == "-" + kwargs[i].key && flat[2 * i + 1] == kwargs[i].value
  {
    if kwargs == [] then []
    else
      var last := kwargs[|kwargs| - 1];
      FlatKwargs(kwargs[..|kwargs| - 1]) + ["-" + last.key, last.value]
  }

  /** Reading options back into keyword arguments: the inverse partner of
      `FlatKwargs`. */
  function UnflatKwargs(flat: seq<string>): Option<seq<Kwarg>> {
    if flat == [] then Some([])
    else if |flat| < 2 || flat[|flat| - 2] == [] || flat[|flat| - 2][0] != '-' then None
    else
      match UnflatKwargs(flat[..|flat| - 2])
      case None => None
      case Some(kw) => Some(kw + [Kwarg(flat[|flat| - 2][1..], flat[|flat| - 1])])
  }

  /** Every keyword argument can be read back from the option list. */
  lemma {:induction false} KwargsRoundTrip(kwargs: seq<Kwarg>)
    ensures UnflatKwargs(FlatKwargs(kwargs)) == Some(kwargs)
  {
    if kwargs != [] {
      var init, last := kwargs[..|kwargs| - 1], kwargs[|kwargs| - 1];
      var flat := FlatKwargs(kwargs);
      assert flat == FlatKwargs(init) + ["-" + last.key, last.value];
      assert flat[..|flat| - 2] == FlatKwargs(init);
      var key := "-" + last.key;
      assert flat[|flat| - 2] == key && flat[|flat| - 1] == last.value;
      assert key != [] && key[0] == '-' && key[1..] == last.key;
      KwargsRoundTrip(init);
      assert init + [last] == kwargs;
    }
  }

  /** The loop that builds `formatted_kwargs` with `extend`. */
  method FormatKwargs(kwargs: seq<Kwarg>) returns (formatted: seq<string>)
    ensures formatted == FlatKwargs(kwargs)
  {
    formatted := [];
    var i := 0;
    while i < |kwargs|
      invariant 0 <= i <= |kwargs|
      invariant formatted == FlatKwargs(kwargs[..i])
    {
      var kw := kwargs[i];
      formatted := formatted + ["-" + kw.key, kw.value];
      assert kwargs[..i + 1][..i] == kwargs[..i];
      i := i + 1;
    }
    assert kwargs[..i] == kwargs;
  }

  const Program: string := "msms"
  const InputName: string := "input.xyzr"
  const OutputName: string := "out"

  /** The fixed start of the command: the program, its input file and the
      base name of its output files, both inside the working directory. */
  function CallPrefix(tmp: string): (prefix: seq<string>)
    ensures |prefix| == 5
    ensures prefix[0] == Program && prefix[1] == "-if" && prefix[3] == "-of"
    ensures tmp != [] && tmp[|tmp| - 1] != '/' ==>
      prefix[2] == tmp + "/" + InputName && prefix[4] == tmp + "/" + OutputName
    ensures |prefix[2]| >= |tmp| + |InputName| && |prefix[4]| >= |tmp| + |OutputName|
    ensures prefix[2][..|tmp|] == tmp && prefix[2][|prefix[2]| - |InputName|..] == InputName
    ensures prefix[4][..|tmp|] == tmp && prefix[4][|prefix[4]| - |OutputName|..] == OutputName
  {
    [Program, "-if", JoinPath(tmp, InputName), "-of", JoinPath(tmp, OutputName)]
  }

  /** The whole command line: the fixed prefix, then the positional
      arguments unchanged and in order, then the options built from the
      keyword arguments. */
  method Command(tmp: string, args: seq<string>, kwargs: seq<Kwarg>) returns (call: seq<string>)
    ensures call == CallPrefix(tmp) + args + FlatKwargs(kwargs)
    ensures |call| == 5 + |args| + 2 * |kwargs|
    ensures call[5..5 + |args|] == args
    ensures UnflatKwargs(call[5 + |args|..]) == Some(kwargs)
  {
    var formatted := FormatKwargs(kwargs);
    call := CallPrefix(tmp) + args + formatted;
    assert call[5..5 + |args|] == args;
    assert call[5 + |args|..] == formatted;
    KwargsRoundTrip(kwargs);
  }

  /** Everything `run_msms` hands to the surface program. */
  datatype Run<T> = Run(xyzr: seq<seq<T>>, call: seq<string>, cwd: string)

  /** `run_msms` up to the start of the process: the shape checks come
      before any other work, and their failure is the whole outcome. */
  method PrepareRun<T>(xyz: NdArray<T>, radii: NdArray<T>, tmp: string, args: seq<string>, kwargs: seq<Kwarg>)
    returns (r: Result<Run<T>, ShapeError>)
    requires WellFormed(xyz) && WellFormed(radii)
    ensures XyzrRows(xyz, radii).Err? ==> r == Err(XyzrRows(xyz, radii).error)
    ensures XyzrRows(xyz, radii).Ok? ==>
      r == Ok(Run(XyzrRows(xyz, radii).value, CallPrefix(tmp) + args + FlatKwargs(kwargs), tmp))
  {
    var rows := XyzrRows(xyz, radii);
    if rows.Err? {
      return Err(rows.error);
    }
    var call := Command(tmp, args, kwargs);
    r := Ok(Run(rows.value, call, tmp));
  }
}

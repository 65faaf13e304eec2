/**
 * The part of a netCDF container that the SWW loader looks at, as a value:
 * which dimensions and variables it has, their lengths and their values.
 * The reads below stand for the netCDF calls the loader makes; the library
 * itself is not modelled.
 */
module NetCdf {

  import opened Wrappers

  /** The values of a numeric variable, flattened in row-major order, in the type the file stores. */
  datatype Values = Reals(reals: seq<real>) | Ints(ints: seq<int>)

  /** A variable: its values, and whether a whole-variable read of it succeeds. */
  datatype Var = Var(values: Values, readable: bool)

  /**
   * An opened container. `dims` maps each dimension name to its length, or to
   * None when the length lookup fails; a name that is absent is a dimension
   * the file does not have. `atts` holds the global float attributes.
   */
  datatype File = File(dims: map<string, Option<nat>>, vars: map<string, Var>, atts: map<string, real>)

  /** The number of values a variable holds. */
  function Count(v: Values): nat
  {
    match v
    case Reals(rs) => |rs|
    case Ints(ns) => |ns|
  }

  /** Conversion of a stored float to an int, toward zero as a C cast does. */
  function Truncate(r: real): (i: int)
    ensures 0.0 <= r ==> 0 <= i && i as real <= r < i as real + 1.0
    ensures r < 0.0 ==> i <= 0 && i as real - 1.0 < r <= i as real
  {
    if r >= 0.0 then r.Floor else -((-r).Floor)
  }

  /** The values as a float read delivers them. */
  function AsReals(v: Values): (r: seq<real>)
    ensures |r| == Count(v)
  {
    match v
    case Reals(rs) => rs
    case Ints(ns) => seq(|ns|, k requires 0 <= k < |ns| => ns[k] as real)
  }

  /** The values as an int read delivers them. */
  function AsInts(v: Values): (r: seq<int>)
    ensures |r| == Count(v)
  {
    match v
    case Reals(rs) => seq(|rs|, k requires 0 <= k < |rs| => Truncate(rs[k]))
    case Ints(ns) => ns
  }

  /** nc_get_var_float: the whole variable, or None when the read fails. */
  function GetVarFloat(v: Var): Option<seq<real>>
  {
    if v.readable then Some(AsReals(v.values)) else None
  }

  /** nc_get_var_int: the whole variable, or None when the read fails. */
  function GetVarInt(v: Var): Option<seq<int>>
  {
    if v.readable then Some(AsInts(v.values)) else None
  }

  /** Row `t` of a [rows, n] array lies inside the flattened values. */
  lemma {:induction false} RowFits(t: nat, rows: nat, n: nat)
    requires t < rows
    ensures t * n + n <= rows * n
  {
    if t + 1 < rows {
      RowFits(t, rows - 1, n);
      assert rows * n == (rows - 1) * n + n;
    } else {
      assert rows == t + 1;
      assert rows * n == t * n + n;
    }
  }

  /**
   * Row `t` of a variable of shape [rows, n]: what nc_get_vars_float reads with
   * start {t, 0}, count {1, n} and stride {1, 1}.
   */
  function Row(v: Var, t: nat, rows: nat, n: nat): (r: seq<real>)
    requires t < rows && Count(v.values) == rows * n
    ensures |r| == n
  {
    RowFits(t, rows, n);
    AsReals(v.values)[t * n .. t * n + n]
  }

  /**
   * nc_get_vars_float into a caller's buffer of length n: the buffer then holds
   * row `t`. The loader ignores the status of this call, so it has none here.
   */
  method GetVarsFloat(v: Var, t: nat, rows: nat, buf: array<real>)
    requires t < rows && Count(v.values) == rows * buf.Length
    modifies buf
    ensures buf[..] == Row(v, t, rows, buf.Length)
  {
    var row := Row(v, t, rows, buf.Length);
    forall j | 0 <= j < buf.Length {
      buf[j] := row[j];
    }
  }

  /**
   * nc_get_att_float on a global attribute, read into a variable that already
   * holds `default`: when the attribute is absent the variable keeps it.
   */
  function GetAttFloat(f: File, name: string, default: real): real
  {
    if name in f.atts then f.atts[name] else default
  }
}

/** The altitude endpoint's response: one record of eleven named model
    outputs per altitude, collected in a Python dictionary keyed by altitude. */
module Species {
  import opened Outcomes

  /** Number of output columns of the model per grid point. */
  const ColumnCount: nat := 11

  /** The record's keys, in the order the columns come out of the model. */
  const Names: seq<string> := ["Mass", "N2", "O2", "O", "He", "H", "Ar", "N", "AnomO", "NO", "Temperature"]

  /** Total mass density, nine number densities, and temperature. */
  datatype Record = Record(
    mass: real, n2: real, o2: real, o: real, he: real, h: real,
    ar: real, n: real, anomO: real, no: real, temperature: real)

  /** The value stored under a key of the record. */
  function Get(rec: Record, name: string): Option<real> {
    match name
    case "Mass" => Some(rec.mass)
    case "N2" => Some(rec.n2)
    case "O2" => Some(rec.o2)
    case "O" => Some(rec.o)
    case "He" => Some(rec.he)
    case "H" => Some(rec.h)
    case "Ar" => Some(rec.ar)
    case "N" => Some(rec.n)
    case "AnomO" => Some(rec.anomO)
    case "NO" => Some(rec.no)
    case "Temperature" => Some(rec.temperature)
    case _ => None
  }

  /** The record built from one output row: key `Names[k]` takes column `k`. */
  function FromRow(row: seq<real>): (rec: Record)
    requires |row| >= ColumnCount
    ensures forall k :: 0 <= k < ColumnCount ==> Get(rec, Names[k]) == Some(row[k])
  {
    Record(row[0], row[1], row[2], row[3], row[4], row[5], row[6], row[7], row[8], row[9], row[10])
  }

  /** The record's values in column order. */
  function ToRow(rec: Record): (row: seq<real>)
    ensures |row| == ColumnCount
    ensures forall k :: 0 <= k < ColumnCount ==> Get(rec, Names[k]) == Some(row[k])
  {
    [rec.mass, rec.n2, rec.o2, rec.o, rec.he, rec.h, rec.ar, rec.n, rec.anomO, rec.no, rec.temperature]
  }

  /** Reading a row into a record loses only the columns past the eleventh,
      and a record survives the trip through a row. */
  lemma RowRoundTrip(row: seq<real>, rec: Record)
    requires |row| >= ColumnCount
    ensures ToRow(FromRow(row)) == row[..ColumnCount]
    ensures FromRow(ToRow(rec)) == rec
  {
  }

  /** A Python dictionary as its items in insertion order. */
  type Dict<K, V> = seq<(K, V)>

  /** The keys of a dictionary, in insertion order. */
  function Keys<K, V>(d: Dict<K, V>): (ks: seq<K>)
    ensures |ks| == |d|
    ensures forall i :: 0 <= i < |d| ==> ks[i] == d[i].0
  {
    seq(|d|, i requires 0 <= i < |d| => d[i].0)
  }

  /** `d[k]`, `None` for a missing key. */
  function Lookup<K(==), V>(d: Dict<K, V>, k: K): Option<V> {
    if d == [] then None
    else if d[0].0 == k then Some(d[0].1)
    else Lookup(d[1..], k)
  }

  /** `d[k] = v`: an existing key keeps its place and takes the new value,
      a new key goes to the end. */
  function Assign<K(==), V>(d: Dict<K, V>, k: K, v: V): Dict<K, V> {
    if d == [] then [(k, v)]
    else if d[0].0 == k then [(k, v)] + d[1..]
    else [d[0]] + Assign(d[1..], k, v)
  }

  /** Assignment as a dictionary: the key afterwards maps to the new value,
      every other key keeps its value, and the key order changes only by
      appending a new key. */
  lemma {:induction false} AssignSpec<K(!new), V>(d: Dict<K, V>, k: K, v: V)
    ensures Keys(Assign(d, k, v)) == if k in Keys(d) then Keys(d) else Keys(d) + [k]
    ensures Lookup(Assign(d, k, v), k) == Some(v)
    ensures forall k' :: k' != k ==> Lookup(Assign(d, k, v), k') == Lookup(d, k')
  {
    var r := Assign(d, k, v);
    if d == [] {
    } else if d[0].0 == k {
      assert r[1..] == d[1..];
      assert Keys(d) == [k] + Keys(d[1..]);
      assert Keys(r) == [k] + Keys(r[1..]);
    } else {
      var tail := Assign(d[1..], k, v);
      AssignSpec(d[1..], k, v);
      assert r[1..] == tail;
      assert Keys(d) == [d[0].0] + Keys(d[1..]);
      assert Keys(r) == [d[0].0] + Keys(tail);
    }
  }

  /** The loop of the altitude handler over its first `n` altitudes:
      `features[alts[i]] = props(rows[i])` for i = 0, 1, ..., n - 1. */
  function Features(alts: seq<int>, rows: seq<seq<real>>, n: nat): (d: Dict<int, Record>)
    requires n <= |alts| && n <= |rows|
    requires forall i :: 0 <= i < n ==> |rows[i]| >= ColumnCount
    requires forall i, j :: 0 <= i < j < n ==> alts[i] != alts[j]
    ensures Keys(d) == alts[..n]
    ensures forall i :: 0 <= i < n ==> Lookup(d, alts[i]) == Some(FromRow(rows[i]))
  {
    if n == 0 then []
    else
      var d := Features(alts, rows, n - 1);
      assert alts[..n] == alts[..n - 1] + [alts[n - 1]];
      assert alts[n - 1] !in alts[..n - 1];
      AssignSpec(d, alts[n - 1], FromRow(rows[n - 1]));
      Assign(d, alts[n - 1], FromRow(rows[n - 1]))
  }
}

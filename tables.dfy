/** Data frames as the motor code uses them: named columns of reals,
    column order kept as read. */
module Tables {
  import opened Outcomes

  datatype Frame = Frame(headers: seq<string>, columns: seq<seq<real>>)

  /** One header per column and every column of the same length. */
  predicate WellFormed(f: Frame)
  {
    && |f.headers| == |f.columns|
    && forall i, j :: 0 <= i < |f.columns| && 0 <= j < |f.columns| ==> |f.columns[i]| == |f.columns[j]|
  }

  /** A header after `DataFrame.rename(columns=m)`: mapped when listed, kept otherwise. */
  function Renamed(m: map<string, string>, h: string): (r: string)
    ensures h in m ==> r == m[h]
    ensures h !in m ==> r == h
  {
    if h in m then m[h] else h
  }

  /** `DataFrame.rename(columns=m)`: headers are renamed, data is untouched. */
  function Rename(f: Frame, m: map<string, string>): (r: Frame)
    ensures |r.headers| == |f.headers| && r.columns == f.columns
    ensures forall i :: 0 <= i < |f.headers| ==> r.headers[i] == Renamed(m, f.headers[i])
  {
    Frame(seq(|f.headers|, i requires 0 <= i < |f.headers| => Renamed(m, f.headers[i])), f.columns)
  }

  /** Renaming twice with a map none of whose targets is itself renamed
      is the same as renaming once. */
  lemma RenameIdempotent(f: Frame, m: map<string, string>)
    requires forall h :: h in m ==> m[h] !in m
    ensures Rename(Rename(f, m), m) == Rename(f, m)
  {
    var once := Rename(f, m);
    var twice := Rename(once, m);
    forall i | 0 <= i < |f.headers|
      ensures twice.headers[i] == once.headers[i]
    {
      assert once.headers[i] !in m;
    }
    assert twice.headers == once.headers;
  }

  /** Position of the first column named `name`, |headers| when there is none. */
  function Find(headers: seq<string>, name: string): (i: nat)
    ensures i <= |headers|
    ensures i < |headers| ==> headers[i] == name
    ensures forall j :: 0 <= j < i ==> headers[j] != name
  {
    if |headers| == 0 then 0
    else if headers[0] == name then 0
    else 1 + Find(headers[1..], name)
  }

  /** `frame[name]` for a single column: KeyError when no column has that name. */
  function Column(f: Frame, name: string): (r: Result<seq<real>>)
    requires WellFormed(f)
    ensures r.Success? <==> name in f.headers
    ensures r.Failure? ==> r.error == KeyError(name)
    ensures r.Success? ==> exists i :: 0 <= i < |f.headers| && f.headers[i] == name && r.value == f.columns[i]
  {
    var i := Find(f.headers, name);
    if i < |f.headers| then Success(f.columns[i]) else Failure(KeyError(name))
  }

  lemma RenameWellFormed(f: Frame, m: map<string, string>)
    requires WellFormed(f)
    ensures WellFormed(Rename(f, m))
  {
  }

  /** A column of a well-formed frame has as many rows as the frame. */
  lemma ColumnLength(f: Frame, name: string)
    requires WellFormed(f) && name in f.headers
    ensures |f.columns| > 0 && |Column(f, name).value| == |f.columns[0]|
  {
  }

  /** `frame[name] = frame[name] / d`: every column called `name` is divided
      element-wise by d; KeyError when there is none. */
  function DivideColumn(f: Frame, name: string, d: real): (r: Result<Frame>)
    requires d != 0.0
    ensures r.Success? <==> name in f.headers
    ensures r.Failure? ==> r.error == KeyError(name)
    ensures r.Success? ==>
      && r.value.headers == f.headers
      && |r.value.columns| == |f.columns|
      && forall i :: 0 <= i < |f.columns| ==>
           && |r.value.columns[i]| == |f.columns[i]|
           && (i < |f.headers| && f.headers[i] == name ==>
                 forall j :: 0 <= j < |f.columns[i]| ==> r.value.columns[i][j] * d == f.columns[i][j])
           && (i >= |f.headers| || f.headers[i] != name ==> r.value.columns[i] == f.columns[i])
  {
    if name !in f.headers then Failure(KeyError(name))
    else
      var cols := seq(|f.columns|, i requires 0 <= i < |f.columns| =>
        if i < |f.headers| && f.headers[i] == name
        then seq(|f.columns[i]|, j requires 0 <= j < |f.columns[i]| => f.columns[i][j] / d)
        else f.columns[i]);
      Success(Frame(f.headers, cols))
  }
}

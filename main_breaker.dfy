/** The 120 A main breaker of frc_rekt/main_breaker.py: which datasheet
    tables it loads and how it keys them.  Reading a CSV file is the
    `load` parameter. */
module MainBreaker {
  import opened Text
  import opened Tables

  const Directory: string := "data/data_sheets"
  const FilePrefix: string := "120-main-breaker-"

  /** `_get_file_name(datatype='temp_derate', boundary='min')`, without the
      encoding detection. */
  function FileName(dataType: string := "temp_derate", boundary: string := "min"): (path: string)
    ensures path == Directory + "/" + FilePrefix + dataType + "-" + boundary + ".csv"
    ensures Directory + "/" + FilePrefix <= path
    ensures |path| >= 4 && path[|path| - 4..] == ".csv"
  {
    Directory + "/" + FilePrefix + dataType + "-" + boundary + ".csv"
  }

  /** Splitting at the first dash: a datatype without dashes is recovered. */
  lemma {:induction false} DashSplit(d1: string, b1: string, d2: string, b2: string)
    requires '-' !in d1 && '-' !in d2
    requires d1 + "-" + b1 == d2 + "-" + b2
    ensures d1 == d2 && b1 == b2
  {
    var m := d1 + "-" + b1;
    assert m[|d1|] == '-';
    assert (d2 + "-" + b2)[|d2|] == '-';
    assert d1 == m[..|d1|] == d2;
    assert b1 == m[|d1| + 1..] == b2;
  }

  /** Datatypes without dashes (such as `temp_derate` and `trip_time`) never
      share a file: the path determines the datatype and the boundary. */
  lemma FileNameInjective(d1: string, b1: string, d2: string, b2: string)
    requires '-' !in d1 && '-' !in d2
    requires FileName(d1, b1) == FileName(d2, b2)
    ensures d1 == d2 && b1 == b2
  {
    var a := Directory + "/" + FilePrefix;
    assert FileName(d1, b1) == a + (d1 + "-" + b1) + ".csv";
    assert FileName(d2, b2) == a + (d2 + "-" + b2) + ".csv";
    SplitEqual(a, d1 + "-" + b1, ".csv", d2 + "-" + b2);
    DashSplit(d1, b1, d2, b2);
  }

  /** `_get_frame`: the loaded table, unmodified. */
  function GetFrame(load: string -> Frame, dataType: string := "temp_derate", boundary: string := "min"): (f: Frame)
    ensures f == load(FileName(dataType, boundary))
  {
    load(FileName(dataType, boundary))
  }

  /** A table per boundary, keyed `min` and `max`. */
  function Frames(load: string -> Frame, dataType: string): (m: map<string, Frame>)
    ensures m.Keys == {"min", "max"}
    ensures m["min"] == load(FileName(dataType, "min")) && m["max"] == load(FileName(dataType, "max"))
  {
    map["min" := GetFrame(load, dataType, "min"), "max" := GetFrame(load, dataType, "max")]
  }

  datatype MainBreaker = MainBreaker(
    ambientTemp: real,
    tempDerateMinFrames: map<string, Frame>,
    tripTimeFrames: map<string, Frame>)

  /** `MainBreaker(ambient_temp=25)`: both datasheet pairs loaded on
      construction. */
  function NewMainBreaker(load: string -> Frame, ambientTemp: real := 25.0): (b: MainBreaker)
    ensures b.ambientTemp == ambientTemp
    ensures b.tempDerateMinFrames == Frames(load, "temp_derate")
    ensures b.tripTimeFrames == Frames(load, "trip_time")
  {
    MainBreaker(ambientTemp, Frames(load, "temp_derate"), Frames(load, "trip_time"))
  }

  /** The breaker reads four different files. */
  lemma FourDistinctFiles()
    ensures FileName("temp_derate", "min") != FileName("temp_derate", "max")
    ensures FileName("trip_time", "min") != FileName("trip_time", "max")
    ensures forall b1, b2 :: FileName("temp_derate", b1) != FileName("trip_time", b2)
  {
    if FileName("temp_derate", "min") == FileName("temp_derate", "max") {
      FileNameInjective("temp_derate", "min", "temp_derate", "max");
    }
    if FileName("trip_time", "min") == FileName("trip_time", "max") {
      FileNameInjective("trip_time", "min", "trip_time", "max");
    }
    forall b1, b2 ensures FileName("temp_derate", b1) != FileName("trip_time", b2) {
      if FileName("temp_derate", b1) == FileName("trip_time", b2) {
        FileNameInjective("temp_derate", b1, "trip_time", b2);
      }
    }
  }
}

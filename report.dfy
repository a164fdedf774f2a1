/** The table lines `docker scan` prints: the header of each table and the
    row written for each result, tab-separated as handed to the tab writer.
    `%v` prints a bool as `true` or `false` and `%d` an integer in decimal. */
module Report {
  import opened Wrappers
  import opened Text
  import opened ContainerScan
  import opened ImageScan
  import opened Engine

  /** Fields each followed by a tab. */
  function Cells(fields: seq<string>): string
  {
    if fields == [] then "" else fields[0] + "\t" + Cells(fields[1..])
  }

  const ImagesColumns: seq<string> := ["ID", "TOTAL", "LOW", "MEDIUM", "HIGH", "MALWARE"]

  const ContainersColumns: seq<string> :=
    ["ID", "IMAGE", "RUNNING", "PRIVILEGED", "PUBLISHEDALLPORTS", "HOSTMOUNTS", "CAPADD"]

  /** `fmt.Fprintln` of the `images` header: each column followed by a tab. */
  const ImagesHeader: string := Cells(ImagesColumns) + "\n"

  /** `fmt.Fprintln` of the `containers` header: each column followed by a tab. */
  const ContainersHeader: string := Cells(ContainersColumns) + "\n"

  /** `%v` of a bool. */
  function BoolText(b: bool): string
  {
    if b then "true" else "false"
  }

  function ParseBool(s: string): Option<bool>
  {
    if s == "true" then Some(true) else if s == "false" then Some(false) else None
  }

  /** The fields of an image row: the image, then the total, low, medium,
      high and malware counts; negligible and sensitive are not printed. */
  function ImageFields(res: ImageScanResults): seq<string>
  {
    var s := res.summary;
    [res.image, IntToDec(s.total), IntToDec(s.low), IntToDec(s.medium), IntToDec(s.high), IntToDec(s.malware)]
  }

  /** `Fprintf(tw, "%v\t%d\t%d\t%d\t%d\t%d\n", ...)`: the fields separated
      by tabs, with no tab after the last; a line that splits at its tabs
      into exactly the fields when the image name holds no tab. */
  function ImageRow(res: ImageScanResults): (line: string)
    ensures |line| >= 1 && line[|line| - 1] == '\n'
    ensures '\t' !in res.image ==> Split(line[..|line| - 1], '\t') == ImageFields(res)
  {
    var f := ImageFields(res);
    var line := Join(f, "\t") + "\n";
    assert line[..|line| - 1] == Join(f, "\t");
    if '\t' in res.image then line
    else
      var s := res.summary;
      IntToDecOmits(s.total, '\t');
      IntToDecOmits(s.low, '\t');
      IntToDecOmits(s.medium, '\t');
      IntToDecOmits(s.high, '\t');
      IntToDecOmits(s.malware, '\t');
      SplitJoin(f, '\t');
      line
  }

  /** What an image row shows. */
  datatype ImageRowValues = ImageRowValues(image: string, total: int, low: int, medium: int, high: int, malware: int)

  /** Reads an image row back: one line of six tab-separated fields, the
      last five of them integers. */
  function ParseImageRow(line: string): Option<ImageRowValues>
  {
    if |line| == 0 || line[|line| - 1] != '\n' then None
    else
      var f := Split(line[..|line| - 1], '\t');
      if |f| != 6 then None
      else
        match (ParseInt(f[1]), ParseInt(f[2]), ParseInt(f[3]), ParseInt(f[4]), ParseInt(f[5]))
        case (Some(total), Some(low), Some(medium), Some(high), Some(malware)) =>
          Some(ImageRowValues(f[0], total, low, medium, high, malware))
        case _ => None
  }

  /** The fields of a container row: ID, image, the running, privileged and
      publish-all-ports flags, the number of host mounts (not the paths),
      and the added capabilities joined with `,`. */
  function ContainerFields(res: ContainerScanResults): seq<string>
  {
    [res.id, res.image, BoolText(res.running), BoolText(res.privileged), BoolText(res.publishAllPorts),
     NatToDec(|res.hostMounts|), Join(res.capAdd, ",")]
  }

  /** The container row: seven `%v` fields, each followed by a tab (`%v`
      of the mount count is its decimal form); a line that splits at its
      tabs into the fields and an empty piece after the last tab, when no
      field holds a tab. */
  function ContainerRow(res: ContainerScanResults): (line: string)
    ensures |line| >= 1 && line[|line| - 1] == '\n'
    ensures ('\t' !in res.id && '\t' !in res.image &&
             forall i :: 0 <= i < |res.capAdd| ==> '\t' !in res.capAdd[i]) ==>
      Split(line[..|line| - 1], '\t') == ContainerFields(res) + [""]
  {
    var f := ContainerFields(res);
    var line := Cells(f) + "\n";
    assert line[..|line| - 1] == Cells(f);
    if '\t' in res.id || '\t' in res.image || exists i :: 0 <= i < |res.capAdd| && '\t' in res.capAdd[i] then line
    else
      IntToDecOmits(|res.hostMounts|, '\t');
      CapsNoTab(res.capAdd);
      CellsSplit(f);
      line
  }

  /** What a container row shows. */
  datatype ContainerRowValues = ContainerRowValues(
    id: string, image: string, running: bool, privileged: bool, publishAllPorts: bool,
    hostMounts: nat, capAdd: seq<string>)

  /** Reads a container row back: one line of seven fields, each followed
      by a tab. */
  function ParseContainerRow(line: string): Option<ContainerRowValues>
  {
    if |line| == 0 || line[|line| - 1] != '\n' then None
    else ParseContainerFields(Split(line[..|line| - 1], '\t'))
  }

  /** The values of the pieces of a container row; an empty capability
      field is no capability. */
  function ParseContainerFields(f: seq<string>): Option<ContainerRowValues>
  {
    if |f| != 8 || f[7] != "" || !AllDigits(f[5]) || |f[5]| == 0 then None
    else
      match (ParseBool(f[2]), ParseBool(f[3]), ParseBool(f[4]))
      case (Some(running), Some(privileged), Some(publishAllPorts)) =>
        Some(ContainerRowValues(f[0], f[1], running, privileged, publishAllPorts, DecToNat(f[5]),
                                if f[6] == "" then [] else Split(f[6], ',')))
      case _ => None
  }

  /** Tab-terminated cells are the fields joined with tabs, then one more
      (empty) field. */
  lemma {:induction false} CellsJoin(fields: seq<string>)
    ensures Cells(fields) == Join(fields + [""], "\t")
    decreases |fields|
  {
    if fields != [] {
      CellsJoin(fields[1..]);
      assert (fields + [""])[1..] == fields[1..] + [""];
      assert (fields + [""])[0] == fields[0];
    }
  }

  /** Splitting tab-terminated cells at tabs gives the fields and a last
      empty piece. */
  lemma CellsSplit(fields: seq<string>)
    requires forall i :: 0 <= i < |fields| ==> '\t' !in fields[i]
    ensures Split(Cells(fields), '\t') == fields + [""]
  {
    CellsJoin(fields);
    var parts := fields + [""];
    forall i | 0 <= i < |parts|
      ensures '\t' !in parts[i]
    {
      if i < |fields| {
        assert parts[i] == fields[i];
      }
    }
    SplitJoin(parts, '\t');
  }

  /** Splitting the `images` header line at tabs gives its column names
      and an empty piece after the last tab. */
  lemma ImagesHeaderColumns()
    ensures Split(ImagesHeader[..|ImagesHeader| - 1], '\t') == ImagesColumns + [""]
  {
    assert ImagesHeader[..|ImagesHeader| - 1] == Cells(ImagesColumns);
    assert forall i | 0 <= i < |ImagesColumns| :: '\t' !in ImagesColumns[i];
    CellsSplit(ImagesColumns);
  }

  /** Splitting the `containers` header line at tabs gives its column
      names and an empty piece after the last tab. */
  lemma ContainersHeaderColumns()
    ensures Split(ContainersHeader[..|ContainersHeader| - 1], '\t') == ContainersColumns + [""]
  {
    assert ContainersHeader[..|ContainersHeader| - 1] == Cells(ContainersColumns);
    assert forall i | 0 <= i < |ContainersColumns| :: '\t' !in ContainersColumns[i];
    CellsSplit(ContainersColumns);
  }

  /** An image row reads back as the image and the five printed counts,
      provided the image name holds no tab. */
  lemma ImageRowRoundTrip(res: ImageScanResults)
    requires '\t' !in res.image
    ensures ParseImageRow(ImageRow(res)) ==
      Some(ImageRowValues(res.image, res.summary.total, res.summary.low, res.summary.medium,
                          res.summary.high, res.summary.malware))
  {
    var s := res.summary;
    IntToDecRoundTrip(s.total);
    IntToDecRoundTrip(s.low);
    IntToDecRoundTrip(s.medium);
    IntToDecRoundTrip(s.high);
    IntToDecRoundTrip(s.malware);
  }

  /** Joining tab-free names with commas gives a tab-free string. */
  lemma {:induction false} CapsNoTab(caps: seq<string>)
    requires forall i :: 0 <= i < |caps| ==> '\t' !in caps[i]
    ensures '\t' !in Join(caps, ",")
    decreases |caps|
  {
    if |caps| > 1 {
      CapsNoTab(caps[1..]);
      assert Join(caps, ",") == caps[0] + "," + Join(caps[1..], ",");
      assert '\t' !in caps[0];
    }
  }

  /** The capability field reads back as the capabilities, provided none
      holds a comma and they are not one empty name. */
  lemma CapsRoundTrip(caps: seq<string>)
    requires forall i :: 0 <= i < |caps| ==> ',' !in caps[i]
    requires caps != [""]
    ensures var text := Join(caps, ",");
      (if text == "" then [] else Split(text, ',')) == caps
  {
    var text := Join(caps, ",");
    if caps != [] {
      SplitJoin(caps, ',');
      if |caps| > 1 {
        assert |text| >= 1;
      } else {
        assert text == caps[0];
      }
    }
  }

  /** A container row reads back as the finding's ID, image, flags, number
      of host mounts and capabilities, provided no field holds a tab, no
      capability holds a comma, and the capabilities are not one empty
      name (which prints like no capability). */
  lemma ContainerRowRoundTrip(res: ContainerScanResults)
    requires '\t' !in res.id && '\t' !in res.image
    requires forall i :: 0 <= i < |res.capAdd| ==> '\t' !in res.capAdd[i] && ',' !in res.capAdd[i]
    requires res.capAdd != [""]
    ensures ParseContainerRow(ContainerRow(res)) ==
      Some(ContainerRowValues(res.id, res.image, res.running, res.privileged, res.publishAllPorts,
                              |res.hostMounts|, res.capAdd))
  {
    var f := ContainerFields(res);
    var line := ContainerRow(res);
    var values := ContainerRowValues(res.id, res.image, res.running, res.privileged, res.publishAllPorts,
                                     |res.hostMounts|, res.capAdd);
    assert ParseContainerFields(f + [""]) == Some(values) by {
      CapsRoundTrip(res.capAdd);
      NatToDecRoundTrip(|res.hostMounts|);
    }
    assert Split(line[..|line| - 1], '\t') == f + [""];
  }

  /** The rows the result consumer writes for a log: one per result sent,
      in the order sent. */
  function Rows<R>(t: seq<Event<R>>, row: R -> string): seq<string>
  {
    if t == [] then []
    else (if t[0].SendResult? then [row(t[0].result)] else []) + Rows(t[1..], row)
  }

  /** One row per result: as many rows as results in the log. */
  lemma {:induction false} RowsCount<R>(t: seq<Event<R>>, row: R -> string)
    ensures |Rows(t, row)| == Count(t, ResultKind)
    decreases |t|
  {
    if t != [] {
      RowsCount(t[1..], row);
    }
  }

  /** Lines written one after another. */
  function Concat(lines: seq<string>): string
  {
    if lines == [] then "" else lines[0] + Concat(lines[1..])
  }

  lemma {:induction false} RowsAppend<R>(a: seq<Event<R>>, b: seq<Event<R>>, row: R -> string)
    ensures Rows(a + b, row) == Rows(a, row) + Rows(b, row)
    decreases |a|
  {
    if a == [] {
      assert a + b == b;
    } else {
      var first := if a[0].SendResult? then [row(a[0].result)] else [];
      var ra, rb := Rows(a[1..], row), Rows(b, row);
      assert Rows(a + b, row) == first + Rows(a[1..] + b, row) by {
        assert (a + b)[1..] == a[1..] + b;
        assert (a + b)[0] == a[0];
      }
      assert Rows(a[1..] + b, row) == ra + rb by {
        RowsAppend(a[1..], b, row);
      }
      assert Rows(a, row) == first + ra;
      assert first + (ra + rb) == (first + ra) + rb;
    }
  }

  lemma {:induction false} ConcatAppend(a: seq<string>, b: seq<string>)
    ensures Concat(a + b) == Concat(a) + Concat(b)
    decreases |a|
  {
    if a == [] {
      assert a + b == b;
    } else {
      ConcatAppend(a[1..], b);
      assert (a + b)[1..] == a[1..] + b;
      assert (a + b)[0] == a[0];
    }
  }
}

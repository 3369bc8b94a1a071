/** The model selection and output prefixes of `main`: which models of the
    voxel file are exported, and the prefix each one's pattern files get. */
module ModelSelection {
  import opened Common
  import opened Decimal
  import opened VoxelLookup
  import opened SharedPalette
  import opened ChunkPlanner

  /** What `main` goes on to export: the models at the given 0-based
      indices, or nothing, because the file holds several models and neither
      flag says which (a message is printed instead). */
  datatype Selection = Export(indices: seq<nat>) | Ambiguous

  /** Every model of the file, in file order. */
  function AllIndices(count: nat): seq<nat>
  {
    seq(count, k requires 0 <= k => k)
  }

  /** All models when the file holds exactly one or all are asked for;
      otherwise the requested 1-based model numbers, in the order given,
      where a number that is 0 or beyond the model count aborts; otherwise
      nothing. */
  ghost function Selected(count: nat, allModels: bool, requested: Option<seq<nat>>): Result<Selection>
  {
    if count == 1 || allModels then Ok(Export(AllIndices(count)))
    else if requested.None? then Ok(Ambiguous)
    else
      var numbers := requested.value;
      if exists k :: 0 <= k < |numbers| && !(1 <= numbers[k] <= count) then Err(InvalidModelIndex)
      else Ok(Export(seq(|numbers|, k requires 0 <= k < |numbers| => numbers[k] - 1)))
  }

  /** The selection loop of `main`: extends the list with every model, or
      pushes the model before each requested number (aborting on a number
      with no model), or prints that the choice is ambiguous. */
  method SelectModels(count: nat, allModels: bool, requested: Option<seq<nat>>) returns (r: Result<Selection>)
    ensures r == Selected(count, allModels, requested)
  {
    var models: seq<nat> := [];
    if count == 1 || allModels {
      models := models + AllIndices(count);
      assert models == AllIndices(count);
    } else if requested.Some? {
      var numbers := requested.value;
      var k := 0;
      while k < |numbers|
        invariant 0 <= k <= |numbers|
        invariant forall t :: 0 <= t < k ==> 1 <= numbers[t] <= count
        invariant models == seq(k, t requires 0 <= t < k => numbers[t] - 1)
      {
        var number := numbers[k];
        if number == 0 || number - 1 >= count {
          return Err(InvalidModelIndex);
        }
        models := models + [number - 1];
        k := k + 1;
      }
      assert !exists t :: 0 <= t < |numbers| && !(1 <= numbers[t] <= count);
    } else {
      return Ok(Ambiguous);
    }
    r := Ok(Export(models));
  }

  /** A file of one model, or `-a`, exports every model in file order; every
      exported index names a model of the file; a requested number n exports
      model n - 1, in the order requested. */
  lemma SelectedValid(count: nat, allModels: bool, requested: Option<seq<nat>>)
    ensures count == 1 || allModels ==>
      var r := Selected(count, allModels, requested);
      r.Ok? && r.value.Export? && |r.value.indices| == count &&
      forall k :: 0 <= k < count ==> r.value.indices[k] == k
    ensures var r := Selected(count, allModels, requested);
      r.Ok? && r.value.Export? ==> forall k :: 0 <= k < |r.value.indices| ==> r.value.indices[k] < count
    ensures var r := Selected(count, allModels, requested);
      r.Ok? && r.value.Export? && count != 1 && !allModels ==>
        |r.value.indices| == |requested.value| &&
        forall k :: 0 <= k < |requested.value| ==> r.value.indices[k] + 1 == requested.value[k]
  {
  }

  /** Selection aborts exactly when model numbers are requested, the file
      does not hold exactly one model, not all are asked for, and some
      number is 0 or beyond the model count. */
  lemma SelectedFails(count: nat, allModels: bool, requested: Option<seq<nat>>)
    ensures Selected(count, allModels, requested).Err? <==>
      count != 1 && !allModels && requested.Some? &&
      exists k :: 0 <= k < |requested.value| && (requested.value[k] == 0 || requested.value[k] > count)
  {
  }

  /** The prefix of the pattern files of the exported model at 0-based
      position i of the export order: the output name itself when a single
      model is exported, `<output>_<i>` otherwise. */
  function ExportPrefix(output: string, exportCount: nat, i: nat): string
  {
    if exportCount == 1 then output else output + "_" + DecimalString(i)
  }

  /** The prefix is the output name itself exactly when a single model is
      exported; otherwise it is the output name, `_` and the model's 0-based
      position in the export order. */
  lemma ExportPrefixPlain(output: string, exportCount: nat, i: nat)
    ensures ExportPrefix(output, exportCount, i) == output <==> exportCount == 1
    ensures exportCount != 1 ==>
      ExportPrefix(output, exportCount, i)[..|output| + 1] == output + "_" &&
      ExportPrefix(output, exportCount, i)[|output| + 1..] == DecimalString(i)
  {
    if exportCount != 1 {
      var p := ExportPrefix(output, exportCount, i);
      assert p == output + "_" + DecimalString(i);
      assert |p| > |output|;
      assert p[..|output| + 1] == output + "_";
    }
  }

  /** The length of the run of digits that starts a string. */
  function DigitRun(s: string): nat
  {
    if s == [] || !IsDigit(s[0]) then 0 else 1 + DigitRun(s[1..])
  }

  /** A digit string followed by a non-digit starts with a digit run of
      exactly its own length. */
  lemma {:induction false} DigitRunOf(d: string, t: string)
    requires forall k :: 0 <= k < |d| ==> IsDigit(d[k])
    requires |t| > 0 && !IsDigit(t[0])
    ensures DigitRun(d + t) == |d|
  {
    if d == [] {
      assert d + t == t;
    } else {
      assert (d + t)[0] == d[0];
      assert (d + t)[1..] == d[1..] + t;
      DigitRunOf(d[1..], t);
    }
  }

  /** A digit string followed by a non-digit is read back unambiguously. */
  lemma DigitsThenMark(d1: string, t1: string, d2: string, t2: string)
    requires forall k :: 0 <= k < |d1| ==> IsDigit(d1[k])
    requires forall k :: 0 <= k < |d2| ==> IsDigit(d2[k])
    requires |t1| > 0 && !IsDigit(t1[0]) && |t2| > 0 && !IsDigit(t2[0])
    requires d1 + t1 == d2 + t2
    ensures d1 == d2 && t1 == t2
  {
    DigitRunOf(d1, t1);
    DigitRunOf(d2, t2);
    var s := d1 + t1;
    assert d1 == s[..|d1|] == d2;
    assert t1 == s[|d1|..] == t2;
  }

  /** The name of a file of one model's run, after the output name and `_`:
      the model's position in the export order, then the model's own suffix `.cbsbp` or `_<k>.cbsbp`. */
  function FileTail(onePattern: bool, k: nat): string
  {
    if onePattern then PatternExtension else "_" + DecimalString(k) + PatternExtension
  }

  lemma FileNameSplits(output: string, exportCount: nat, i: nat, onePattern: bool, k: nat)
    requires exportCount != 1
    ensures PatternFileName(ExportPrefix(output, exportCount, i), onePattern, k) ==
      output + "_" + (DecimalString(i) + FileTail(onePattern, k))
  {
  }

  /** Files of two different exported models never share a name. */
  lemma ModelFileNamesDiffer(output: string, exportCount: nat, i: nat, one: bool, k: nat, i': nat, one': bool, k': nat)
    requires exportCount != 1
    requires PatternFileName(ExportPrefix(output, exportCount, i), one, k) ==
             PatternFileName(ExportPrefix(output, exportCount, i'), one', k')
    ensures i == i'
  {
    FileNameSplits(output, exportCount, i, one, k);
    FileNameSplits(output, exportCount, i', one', k');
    var head := output + "_";
    var a := DecimalString(i) + FileTail(one, k);
    var b := DecimalString(i') + FileTail(one', k');
    assert head + a == head + b;
    assert a == (head + a)[|head|..];
    assert b == (head + b)[|head|..];
    DigitsThenMark(DecimalString(i), FileTail(one, k), DecimalString(i'), FileTail(one', k'));
    DecimalInjective(i, i');
  }

  /** A model of the voxel file: its voxels and its extent. */
  datatype Model = Model(voxels: seq<Voxel>, size: Size)

  /** Each selected index names a model, and `orders` gives, for each
      selected model, an iteration order of its used-slot set. */
  ghost predicate OrdersFit(models: seq<Model>, selected: seq<nat>, orders: seq<seq<byte>>)
  {
    |orders| == |selected| &&
    (forall k :: 0 <= k < |selected| ==> selected[k] < |models|) &&
    (forall k :: 0 <= k < |selected| ==> Enumerates(orders[k], UsedSlots(models[selected[k]].voxels)))
  }

  /** The runs of `create_patterns` on every selected model, each with its
      own prefix, as if none aborted. */
  ghost function ModelRuns(models: seq<Model>, selected: seq<nat>, orders: seq<seq<byte>>,
                           colours: seq<Colour>, closest: Rgb -> Result<string>, output: string): (rs: seq<PlanOutcome>)
    requires OrdersFit(models, selected, orders)
    ensures |rs| == |selected|
  {
    seq(|selected|, n requires 0 <= n < |selected| =>
      Created(models[selected[n]].voxels, models[selected[n]].size, colours, closest, orders[n],
              ExportPrefix(output, |selected|, n)))
  }

  /** The outcomes of runs made in order, where an abort ends the program and
      so no later run is made. */
  function UpToFault(rs: seq<PlanOutcome>): seq<PlanOutcome>
  {
    if rs == [] then []
    else
      var before := UpToFault(rs[..|rs| - 1]);
      if before != [] && before[|before| - 1].fault.Some? then before else before + [rs[|rs| - 1]]
  }

  /** The outcomes are the runs in order, up to and including the first that
      aborts: every outcome but the last is free of faults, and every run is
      made when none aborts. */
  lemma {:induction false} UpToFaultAt(rs: seq<PlanOutcome>)
    ensures var outs := UpToFault(rs);
      |outs| <= |rs| &&
      (forall k :: 0 <= k < |outs| ==> outs[k] == rs[k]) &&
      (forall k :: 0 <= k < |outs| - 1 ==> outs[k].fault.None?) &&
      (|outs| < |rs| ==> outs != [] && outs[|outs| - 1].fault.Some?)
  {
    if rs != [] {
      UpToFaultAt(rs[..|rs| - 1]);
    }
  }

  /** After runs without an abort, the next run is made. */
  lemma UpToFaultNext(rs: seq<PlanOutcome>, i: nat, outs: seq<PlanOutcome>)
    requires i < |rs| && outs == UpToFault(rs[..i])
    requires |outs| == i && forall t :: 0 <= t < i ==> outs[t].fault.None?
    ensures outs + [rs[i]] == UpToFault(rs[..i + 1])
  {
    assert rs[..i + 1][..i] == rs[..i];
  }

  /** After the first abort no later run is made. */
  lemma {:induction false} UpToFaultStops(rs: seq<PlanOutcome>, n: nat)
    requires n <= |rs|
    requires var outs := UpToFault(rs[..n]); outs != [] && outs[|outs| - 1].fault.Some?
    ensures UpToFault(rs) == UpToFault(rs[..n])
    decreases |rs| - n
  {
    if n < |rs| {
      assert rs[..n + 1][..n] == rs[..n];
      UpToFaultStops(rs, n + 1);
    } else {
      assert rs[..n] == rs;
    }
  }

  /** No two files written by the export share a name: within one model's
      run the numbers differ, and across models the export positions do. */
  lemma ExportNamesDistinct(models: seq<Model>, selected: seq<nat>, orders: seq<seq<byte>>,
                            colours: seq<Colour>, closest: Rgb -> Result<string>, output: string,
                            a: nat, i: nat, b: nat, j: nat)
    requires OrdersFit(models, selected, orders)
    requires var outs := UpToFault(ModelRuns(models, selected, orders, colours, closest, output));
      a < |outs| && b < |outs| && i < |outs[a].written| && j < |outs[b].written| && (a, i) != (b, j)
    ensures var outs := UpToFault(ModelRuns(models, selected, orders, colours, closest, output));
      outs[a].written[i].fileName != outs[b].written[j].fileName
  {
    var rs := ModelRuns(models, selected, orders, colours, closest, output);
    var outs := UpToFault(rs);
    UpToFaultAt(rs);
    var ma, mb := models[selected[a]], models[selected[b]];
    var pa, pb := ExportPrefix(output, |selected|, a), ExportPrefix(output, |selected|, b);
    assert outs[a] == Created(ma.voxels, ma.size, colours, closest, orders[a], pa);
    assert outs[b] == Created(mb.voxels, mb.size, colours, closest, orders[b], pb);
    CreatedNames(ma.voxels, ma.size, colours, closest, orders[a], pa);
    CreatedNames(mb.voxels, mb.size, colours, closest, orders[b], pb);
    if a == b {
      assert i != j;
    } else if outs[a].written[i].fileName == outs[b].written[j].fileName {
      assert |selected| != 1;
      ModelFileNamesDiffer(output, |selected|, a, OnePattern(ma.size), i, b, OnePattern(mb.size), j);
    }
  }

  /** The export loop of `main`: runs `create_patterns` on each selected
      model in turn with its prefix, stopping at the first abort. The
      iteration order of each model's used-slot set is given in `orders`. */
  method ExportAll(models: seq<Model>, selected: seq<nat>, orders: seq<seq<byte>>,
                   colours: seq<Colour>, closest: Rgb -> Result<string>, output: string) returns (outs: seq<PlanOutcome>)
    requires OrdersFit(models, selected, orders)
    ensures outs == UpToFault(ModelRuns(models, selected, orders, colours, closest, output))
  {
    ghost var rs := ModelRuns(models, selected, orders, colours, closest, output);
    var exportCount := |selected|;
    outs := [];
    var i := 0;
    while i < exportCount
      invariant 0 <= i <= exportCount
      invariant outs == UpToFault(rs[..i])
      invariant |outs| == i && forall t :: 0 <= t < i ==> outs[t].fault.None?
    {
      var m := models[selected[i]];
      var prefix := ExportPrefix(output, exportCount, i);
      var out := CreatePatterns(m.voxels, m.size, colours, closest, orders[i], prefix);
      assert out == rs[i];
      UpToFaultNext(rs, i, outs);
      outs := outs + [out];
      if out.fault.Some? {
        UpToFaultStops(rs, i + 1);
        return;
      }
      i := i + 1;
    }
    assert rs[..i] == rs;
  }

  /** What the program does after loading the files: the runs of the
      models it exports, and an abort of the selection itself. */
  datatype ProgramOutcome = ProgramOutcome(runs: seq<PlanOutcome>, fault: Option<Fault>)

  /** `orders` gives an iteration order for every model the selection
      exports. */
  ghost predicate SelectionFits(models: seq<Model>, allModels: bool, requested: Option<seq<nat>>, orders: seq<seq<byte>>)
  {
    var r := Selected(|models|, allModels, requested);
    r.Ok? && r.value.Export? ==> OrdersFit(models, r.value.indices, orders)
  }

  /** `main` after loading: an invalid model number aborts before any
      export, an ambiguous choice exports nothing, and otherwise the selected
      models are exported in order up to the first abort. */
  ghost function ProgramRun(models: seq<Model>, allModels: bool, requested: Option<seq<nat>>, orders: seq<seq<byte>>,
                            colours: seq<Colour>, closest: Rgb -> Result<string>, output: string): ProgramOutcome
    requires SelectionFits(models, allModels, requested, orders)
  {
    match Selected(|models|, allModels, requested)
    case Err(f) => ProgramOutcome([], Some(f))
    case Ok(Ambiguous) => ProgramOutcome([], None)
    case Ok(Export(selected)) =>
      ProgramOutcome(UpToFault(ModelRuns(models, selected, orders, colours, closest, output)), None)
  }

  /** The body of `main` after loading: selection, then the export loop. */
  method RunProgram(models: seq<Model>, allModels: bool, requested: Option<seq<nat>>, orders: seq<seq<byte>>,
                    colours: seq<Colour>, closest: Rgb -> Result<string>, output: string) returns (out: ProgramOutcome)
    requires SelectionFits(models, allModels, requested, orders)
    ensures out == ProgramRun(models, allModels, requested, orders, colours, closest, output)
  {
    var selection := SelectModels(|models|, allModels, requested);
    if selection.Err? {
      return ProgramOutcome([], Some(selection.fault));
    }
    if selection.value.Ambiguous? {
      return ProgramOutcome([], None);
    }
    var outs := ExportAll(models, selection.value.indices, orders, colours, closest, output);
    out := ProgramOutcome(outs, None);
  }

  /** A requested model number that is 0 or beyond the model count, when
      the numbers decide the selection, aborts the program before any
      model is exported, so no file is written. */
  lemma InvalidNumberWritesNothing(models: seq<Model>, allModels: bool, requested: Option<seq<nat>>, orders: seq<seq<byte>>,
                                   colours: seq<Colour>, closest: Rgb -> Result<string>, output: string, k: nat)
    requires SelectionFits(models, allModels, requested, orders)
    requires |models| != 1 && !allModels && requested.Some?
    requires k < |requested.value| && (requested.value[k] == 0 || requested.value[k] > |models|)
    ensures ProgramRun(models, allModels, requested, orders, colours, closest, output) == ProgramOutcome([], Some(InvalidModelIndex))
  {
    SelectedFails(|models|, allModels, requested);
  }

  /** A file holding several models, with neither `-a` nor model numbers,
      exports nothing and does not abort. */
  lemma AmbiguousWritesNothing(models: seq<Model>, orders: seq<seq<byte>>,
                               colours: seq<Colour>, closest: Rgb -> Result<string>, output: string)
    requires |models| != 1
    ensures SelectionFits(models, false, None, orders)
    ensures ProgramRun(models, false, None, orders, colours, closest, output) == ProgramOutcome([], None)
  {
  }
}

/** `DemucsWorker`: one separation job. It builds the fixed command line
    around the chosen WAV file and output folder, reads the tool's merged
    output line by line, emits a progress signal for every line that carries
    a percentage and, once the output is exhausted and the process has been
    waited for, emits `finished`. */
module Worker {
  import opened Wrappers
  import opened Text
  import opened Progress

  /** The argument list handed to the process: the separation module run by
      `python`, with fixed flags, then the input file and `-o` the output
      folder. Each path is one argument, whatever characters it holds. */
  function SeparationCommand(fuente: string, salida: string): (argv: seq<string>)
    ensures |argv| == 12
    ensures argv[9] == fuente && argv[11] == salida
    ensures argv[..3] == ["python", "-m", "demucs.separate"]
  {
    ["python", "-m", "demucs.separate",
     "--float32", "--clip-mode=rescale",
     "--two-stems", "guitar",
     "-n", "htdemucs_6s",
     fuente,
     "-o", salida]
  }

  /** Only the two interpolated positions depend on the inputs: any two
      command lines agree everywhere else, and differ exactly where their
      file or folder differ. */
  lemma CommandTemplate(f1: string, s1: string, f2: string, s2: string)
    ensures forall i :: 0 <= i < 12 && i != 9 && i != 11 ==>
      SeparationCommand(f1, s1)[i] == SeparationCommand(f2, s2)[i]
    ensures SeparationCommand(f1, s1) == SeparationCommand(f2, s2) <==> f1 == f2 && s1 == s2
  {
  }

  /** The loop's step: the line just read adds its contribution after what
      was emitted before it. */
  lemma ScanStepAfter(prefix: seq<Event>, lines: seq<string>, i: nat, v: Option<int>)
    requires i < |lines| && v == ProgressOf(lines[i])
    ensures prefix + Scan(lines[..i + 1], ProgressOf) == (prefix + Scan(lines[..i], ProgressOf)) + Emit(v)
  {
    ScanStep(lines, i, ProgressOf);
  }

  class DemucsWorker {
    const fuente: string
    const salida: string
    /** The argument list the process was launched with, once `Run` started. */
    var command: Option<seq<string>>
    /** Every signal emitted so far, in emission order. */
    var emitted: seq<Event>

    constructor (fuente: string, salida: string)
      ensures this.fuente == fuente && this.salida == salida
      ensures command == None && emitted == []
    {
      this.fuente := fuente;
      this.salida := salida;
      command := None;
      emitted := [];
    }

    /** The thread body. `output` is the tool's merged stdout/stderr, one
        element per line as the text-mode reader yields it. */
    method Run(output: seq<string>)
      modifies this
      ensures command == Some(SeparationCommand(fuente, salida))
      ensures emitted == old(emitted) + Events(output)
    {
      command := Some(SeparationCommand(fuente, salida));
      var i := 0;
      while i < |output|
        invariant 0 <= i <= |output|
        invariant command == Some(SeparationCommand(fuente, salida))
        invariant emitted == old(emitted) + Scan(output[..i], ProgressOf)
      {
        var line := output[i];
        var parsed: Option<int> := None;
        if '%' in line {
          parsed := ParseInt(Strip(FirstField(line, '%')));
        }
        ScanStepAfter(old(emitted), output, i, parsed);
        if parsed.Some? {
          emitted := emitted + [Percent(parsed.value)];
        }
        i := i + 1;
      }
      assert output[..i] == output;
      emitted := emitted + [Finished];
    }
  }
}

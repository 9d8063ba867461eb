/** `DemucsGUI`: the window's input state. The source file (`fuente`) is set by
    clicking the drop area (a file dialog) or by dropping a `.wav` file on it;
    the output folder (`salida`) is set through a folder dialog; "EJECUTAR"
    starts a worker only when both are set. Widgets are reduced to the state
    they display; dialogs are reduced to the path they return. */
module Gui {
  import opened Wrappers
  import opened Text
  import opened Progress
  import opened Worker

  /** The events the window's filter distinguishes on the drop area. */
  datatype EventKind = DragEnter | Drop | OtherEvent

  /** A Qt label shows either text or a picture; setting one replaces the other. */
  datatype LabelContent = Caption(text: string) | LoadedImage

  const DropPrompt: string := "CARGAR ARCHIVO WAV"
  const NotWavMessage: string := "Por favor, cargue un archivo .wav"
  const LoadedPrefix: string := "Archivo cargado: "
  const MissingInputWarning: string :=
    "Por favor, cargue un archivo .wav y seleccione una carpeta de salida."

  /** Python truthiness of an optional string: neither `None` nor empty. */
  predicate Truthy(v: Option<string>) {
    v.Some? && v.value != ""
  }

  class DemucsGui {
    var fuente: Option<string>
    var salida: Option<string>
    /** The drop area (`drag_label`). */
    var dragLabel: LabelContent
    /** The label under the output field that names the loaded file. */
    var fileNameLabel: string
    /** The output path field. */
    var outputField: string
    /** The most recently started worker. */
    var worker: DemucsWorker?
    /** The warning boxes shown so far, in order. */
    var warnings: seq<string>

    /** No handler ever stores an empty path, so "set" and "truthy" agree. */
    ghost predicate Valid()
      reads this
    {
      fuente != Some("") && salida != Some("")
    }

    constructor ()
      ensures Valid()
      ensures fuente == None && salida == None
      ensures dragLabel == Caption(DropPrompt) && fileNameLabel == "" && outputField == ""
      ensures worker == null && warnings == []
    {
      fuente, salida := None, None;
      dragLabel := Caption(DropPrompt);
      fileNameLabel := "";
      outputField := "";
      worker := null;
      warnings := [];
    }

    /** A click on the drop area. `selected` is the path the file dialog
        returns, empty when the dialog is cancelled. Only a non-empty result
        changes anything; the dialog's `*.wav` filter is not re-checked. */
    method OpenFileDialog(selected: string)
      requires Valid()
      modifies this
      ensures Valid()
      ensures selected == "" ==>
        fuente == old(fuente) && dragLabel == old(dragLabel) && fileNameLabel == old(fileNameLabel)
      ensures selected != "" ==>
        fuente == Some(selected) && dragLabel == LoadedImage
        && fileNameLabel == LoadedPrefix + LastField(selected, '/')
      ensures salida == old(salida) && outputField == old(outputField)
      ensures worker == old(worker) && warnings == old(warnings)
    {
      if selected != "" {
        fuente := Some(selected);
        var fileName := LastField(selected, '/');
        fileName := LoadedPrefix + fileName;
        dragLabel := LoadedImage;
        fileNameLabel := fileName;
      }
    }

    /** The event filter installed on the window. `fromDragLabel` says whether
        the event targets the drop area; `urls` are the dropped URLs as local
        paths (empty when the drop carries none). Only the first URL counts,
        and it becomes the source only if it ends in `.wav`; the loaded file
        is then named without the prefix the click path adds. */
    method EventFilter(fromDragLabel: bool, kind: EventKind, urls: seq<string>) returns (handled: bool)
      requires Valid()
      modifies this
      ensures Valid()
      ensures handled <==> fromDragLabel && (kind == Drop || kind == DragEnter)
      ensures fromDragLabel && kind == Drop && |urls| > 0 && EndsWith(urls[0], ".wav") ==>
        fuente == Some(urls[0]) && dragLabel == LoadedImage
        && fileNameLabel == LastField(urls[0], '/')
      ensures fromDragLabel && kind == Drop && |urls| > 0 && !EndsWith(urls[0], ".wav") ==>
        fuente == old(fuente) && dragLabel == Caption(NotWavMessage)
        && fileNameLabel == old(fileNameLabel)
      ensures !(fromDragLabel && kind == Drop && |urls| > 0) ==>
        fuente == old(fuente) && dragLabel == old(dragLabel) && fileNameLabel == old(fileNameLabel)
      ensures salida == old(salida) && outputField == old(outputField)
      ensures worker == old(worker) && warnings == old(warnings)
    {
      if fromDragLabel && kind == Drop {
        if |urls| > 0 {
          var filePath := urls[0];
          if EndsWith(filePath, ".wav") {
            fuente := Some(filePath);
            var fileName := LastField(filePath, '/');
            dragLabel := LoadedImage;
            fileNameLabel := fileName;
          } else {
            dragLabel := Caption(NotWavMessage);
          }
        }
        return true;
      } else if fromDragLabel && kind == DragEnter {
        return true;
      }
      return false;
    }

    /** The "Explorar" button. `directory` is the folder dialog's result,
        empty when it is cancelled, which changes nothing. */
    method BrowseOutputDirectory(directory: string)
      requires Valid()
      modifies this
      ensures Valid()
      ensures directory == "" ==> salida == old(salida) && outputField == old(outputField)
      ensures directory != "" ==> salida == Some(directory) && outputField == directory
      ensures fuente == old(fuente) && dragLabel == old(dragLabel) && fileNameLabel == old(fileNameLabel)
      ensures worker == old(worker) && warnings == old(warnings)
    {
      if directory != "" {
        salida := Some(directory);
        outputField := directory;
      }
    }

    /** The "EJECUTAR" button: a fresh worker for the current file and folder
        when both are set, a warning otherwise. Nothing stops a second job
        while an earlier one still runs. */
    method ExecuteCommand() returns (started: bool)
      requires Valid()
      modifies this
      ensures Valid()
      ensures started <==> Truthy(fuente) && Truthy(salida)
      ensures started <==> fuente.Some? && salida.Some?
      ensures started ==>
        worker != null && fresh(worker)
        && worker.fuente == fuente.value && worker.salida == salida.value
        && worker.command == None && worker.emitted == []
        && warnings == old(warnings)
      ensures !started ==> worker == old(worker) && warnings == old(warnings) + [MissingInputWarning]
      ensures fuente == old(fuente) && salida == old(salida)
      ensures dragLabel == old(dragLabel) && fileNameLabel == old(fileNameLabel)
      ensures outputField == old(outputField)
    {
      if Truthy(fuente) && Truthy(salida) {
        worker := new DemucsWorker(fuente.value, salida.value);
        started := true;
      } else {
        warnings := warnings + [MissingInputWarning];
        started := false;
      }
    }
  }

  /** A whole session: pick a file by clicking, pick a folder, run, and let
      the tool print `output`. The job starts on the chosen paths and the
      window's listener sees the progress signals, then `finished`. */
  method SeparateOneFile(output: seq<string>) returns (started: bool, argv: seq<string>, events: seq<Event>)
    ensures started
    ensures argv == SeparationCommand("/home/user/song.wav", "/out")
    ensures events == Events(output)
  {
    var gui := new DemucsGui();
    gui.OpenFileDialog("/home/user/song.wav");
    gui.BrowseOutputDirectory("/out");
    started := gui.ExecuteCommand();
    var w := gui.worker;
    w.Run(output);
    argv := w.command.value;
    events := w.emitted;
  }

  /** Two jobs in a row, the second started after the first finished, on a
      drop of two files: both jobs separate the first file dropped, and each
      worker carries only its own run's signals. */
  method TwoJobs(first: seq<string>, second: seq<string>)
    returns (source1: string, source2: string, e1: seq<Event>, e2: seq<Event>)
    ensures source1 == "/music/a.wav" && source2 == "/music/a.wav"
    ensures e1 == Events(first) && e2 == Events(second)
  {
    var gui := new DemucsGui();
    var dropped := gui.EventFilter(true, Drop, ["/music/a.wav", "/music/b.wav"]);
    gui.BrowseOutputDirectory("/out");
    var ok := gui.ExecuteCommand();
    var w1 := gui.worker;
    w1.Run(first);
    ok := gui.ExecuteCommand();
    var w2 := gui.worker;
    w2.Run(second);
    source1, source2 := w1.fuente, w2.fuente;
    e1, e2 := w1.emitted, w2.emitted;
  }

  /** Pressing "EJECUTAR" with a folder but no file, or after a dropped file
      that is not a `.wav`, starts nothing and shows the warning. */
  method MissingSource() returns (started: bool, warnings: seq<string>, dropArea: LabelContent)
    ensures !started
    ensures warnings == [MissingInputWarning]
    ensures dropArea == Caption(NotWavMessage)
  {
    var gui := new DemucsGui();
    gui.BrowseOutputDirectory("/out");
    var handled := gui.EventFilter(true, Drop, ["/music/track.mp3"]);
    started := gui.ExecuteCommand();
    warnings := gui.warnings;
    dropArea := gui.dragLabel;
  }
}

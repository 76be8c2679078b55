/**
 * The movement-report upload of
 * src/app/app/_components/forms/SubirReporteMovimientosForm.tsx: only an
 * Excel or CSV file is taken, and a submit with a file toggles the stored task
 * once and clears the form.
 */
module ReportUploadForm {
  import opened Wrappers
  import opened Strings
  import opened Store
  import TasksApi

  /** The two properties of a browser `File` the form reads. */
  datatype PickedFile = PickedFile(name: string, mimeType: string)

  const ValidTypes: seq<string> := ["application/vnd.ms-excel",
                                    "application/vnd.openxmlformats-officedocument.spreadsheetml.sheet",
                                    "text/csv"]

  /** One of the three MIME types, or a name ending in `.xlsx`, `.xls` or `.csv`. */
  predicate Accepted(f: PickedFile)
  {
    f.mimeType in ValidTypes || EndsWith(f.name, ".xlsx") || EndsWith(f.name, ".xls") || EndsWith(f.name, ".csv")
  }

  /** The name alone is enough, the type alone is enough, and a PDF is refused. */
  lemma AcceptanceExamples()
    ensures Accepted(PickedFile("movimientos.xlsx", ""))
    ensures Accepted(PickedFile("datos", "text/csv"))
    ensures !Accepted(PickedFile("reporte.pdf", "application/pdf"))
  {
    XlsxNameAccepted();
    PdfRefused();
  }

  lemma XlsxNameAccepted()
    ensures EndsWith("movimientos.xlsx", ".xlsx")
  {
    assert "movimientos.xlsx"[11..] == ".xlsx";
  }

  lemma PdfRefused()
    ensures "application/pdf" !in ValidTypes
    ensures !EndsWith("reporte.pdf", ".xlsx") && !EndsWith("reporte.pdf", ".xls") && !EndsWith("reporte.pdf", ".csv")
  {
    var pdf := "reporte.pdf";
    assert pdf[|pdf| - 5..] != ".xlsx" by { assert pdf[|pdf| - 5..][1] == '.'; }
    assert pdf[|pdf| - 4..] != ".xls" by { assert pdf[|pdf| - 4..][1] == 'p'; }
    assert pdf[|pdf| - 4..] != ".csv" by { assert pdf[|pdf| - 4..][1] == 'p'; }
  }

  datatype SubmitOutcome =
    | NoFileSelected        // "Por favor selecciona un archivo"
    | Uploaded              // "Reporte subido exitosamente"
    | UploadFailed          // "Error al subir el archivo..."

  class ReportUploadState {
    var selectedFile: Option<PickedFile>
    var uploading: bool
    var comments: string

    constructor ()
      ensures selectedFile.None? && !uploading && comments == ""
    {
      selectedFile := None;
      uploading := false;
      comments := "";
    }

    /** `handleFileSelect`: the first file is taken if accepted; a refused one leaves the selection and alerts. */
    method HandleFileSelect(files: seq<PickedFile>) returns (alerted: bool)
      modifies this
      ensures alerted <==> |files| > 0 && !Accepted(files[0])
      ensures selectedFile == if |files| > 0 && Accepted(files[0]) then Some(files[0]) else old(selectedFile)
      ensures uploading == old(uploading) && comments == old(comments)
    {
      alerted := false;
      if |files| > 0 {
        var file := files[0];
        if file.mimeType in ValidTypes || EndsWith(file.name, ".xlsx") || EndsWith(file.name, ".xls")
           || EndsWith(file.name, ".csv") {
          selectedFile := Some(file);
        } else {
          alerted := true;
        }
      }
    }

    method SetComments(text: string)
      modifies this
      ensures comments == text && selectedFile == old(selectedFile) && uploading == old(uploading)
    {
      comments := text;
    }

    /**
     * `handleSubmit`: without a file nothing happens; otherwise the stored task
     * is toggled once (`toggleThrows` says the mutation threw) and the
     * form cleared, and it is not uploading afterwards either way.
     */
    method HandleSubmit(tasks: Table<TasksApi.Task>, taskId: Id, toggleThrows: bool) returns (outcome: SubmitOutcome)
      requires tasks.Valid()
      modifies this, tasks
      ensures tasks.Valid() && (old(selectedFile).Some? ==> !uploading)
      ensures old(selectedFile).None? ==>
        outcome == NoFileSelected && tasks.rows == old(tasks.rows) && uploading == old(uploading)
        && selectedFile == old(selectedFile) && comments == old(comments)
      ensures old(selectedFile).Some? && toggleThrows ==>
        outcome == UploadFailed && tasks.rows == old(tasks.rows)
        && selectedFile == old(selectedFile) && comments == old(comments)
      ensures old(selectedFile).Some? && !toggleThrows ==>
        outcome == Uploaded && selectedFile.None? && comments == ""
        && match old(tasks.Get(taskId))
           case None => tasks.rows == old(tasks.rows)
           case Some(t) => tasks.rows == Replace(old(tasks.rows), taskId, TasksApi.Toggled(t))
    {
      if selectedFile.None? {
        return NoFileSelected;
      }
      uploading := true;
      if toggleThrows {
        outcome := UploadFailed;
      } else {
        TasksApi.ToggleTask(tasks, taskId);
        selectedFile := None;
        comments := "";
        outcome := Uploaded;
      }
      uploading := false;
    }
  }
}

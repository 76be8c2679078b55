/**
 * The file input of src/components/forms/camunda/CamundaFilepicker.tsx:
 * the first chosen file is handed to the form unless it is larger than
 * `maxSize` megabytes, and the accepted extensions are shown as a hint.
 */
module CamundaFilepicker {
  import opened Wrappers
  import opened Strings
  import opened JsValues
  import DynamicForm

  const DefaultAccept := ".pdf,.doc,.docx,.xls,.xlsx,.jpg,.jpeg,.png"
  const DefaultMaxSize: nat := 10

  /** `maxSize * 1024 * 1024`: the limit in bytes. */
  function LimitBytes(maxSize: nat): nat
  {
    maxSize * 1024 * 1024
  }

  /** `file && maxSize && file.size > maxSize * 1024 * 1024`, the case that raises the alert. */
  predicate TooLarge(file: File, maxSize: nat)
  {
    maxSize != 0 && file.size > LimitBytes(maxSize)
  }

  /**
   * `handleFileChange`: `None` when the first file is too large (an alert
   * and no `onChange`), otherwise the first file, or none, for `onChange`.
   * Only the first file is ever forwarded, whatever was chosen.
   */
  function FileChange(files: seq<File>, maxSize: nat): (r: Option<DynamicForm.FilePick>)
    ensures r.None? <==> |files| > 0 && TooLarge(files[0], maxSize)
    ensures r.Some? ==> (r.value.NoFile? <==> |files| == 0) && !r.value.ManyFiles?
    ensures r.Some? && |files| > 0 ==> r.value == DynamicForm.OneFile(files[0])
  {
    if |files| == 0 then Some(DynamicForm.NoFile)
    else if TooLarge(files[0], maxSize) then None
    else Some(DynamicForm.OneFile(files[0]))
  }

  /** A file of exactly the limit passes, one byte more does not; a limit of 0 lets everything through. */
  lemma SizeGateBoundary(f: File, maxSize: nat)
    ensures f.size == LimitBytes(maxSize) ==> FileChange([f], maxSize).Some?
    ensures maxSize > 0 && f.size == LimitBytes(maxSize) + 1 ==> FileChange([f], maxSize).None?
    ensures FileChange([f], 0) == Some(DynamicForm.OneFile(f))
    ensures LimitBytes(DefaultMaxSize) == 10485760
  {
  }

  /** The change handler against the form: a rejected file leaves the form data as it was. */
  method HandleFileChange(form: DynamicForm.FormSession, id: string, camundaKey: Option<string>,
                          files: seq<File>, maxSize: nat) returns (alerted: bool)
    modifies form
    ensures alerted <==> FileChange(files, maxSize).None?
    ensures alerted ==> form.formData == old(form.formData)
    ensures !alerted ==> form.formData == Set(old(form.formData), DynamicForm.InputKey(camundaKey, id),
                                              DynamicForm.PickValue(FileChange(files, maxSize).value))
    ensures form.components == old(form.components) && form.uploading == old(form.uploading)
  {
    var pick := if |files| > 0 then DynamicForm.OneFile(files[0]) else DynamicForm.NoFile;
    if pick.OneFile? && maxSize != 0 && pick.file.size > maxSize * 1024 * 1024 {
      return true;
    }
    form.HandleFileChange(DynamicForm.InputKey(camundaKey, id), pick);
    alerted := false;
  }

  /** `accept.replace(/\./g, '').toUpperCase()`. */
  function AcceptHint(accept: string): (r: string)
    ensures r == ToUpper(RemoveChar(accept, '.'))
    ensures '.' !in r && |r| == |accept| - multiset(accept)['.']
    ensures forall i :: 0 <= i < |r| ==> !('a' <= r[i] <= 'z')
  {
    RemoveCharCounts(accept, '.');
    ToUpper(RemoveChar(accept, '.'))
  }

  /** The dots go and the extensions are upper-cased: ".pdf,.png" is shown as "PDF,PNG". */
  lemma AcceptHintExample()
    ensures AcceptHint(".pdf,.png") == "PDF,PNG"
  {
    AcceptHintOf(".pdf,.png");
  }

  lemma AcceptHintOf(s: string)
    requires s == ".pdf,.png"
    ensures AcceptHint(s) == "PDF,PNG"
  {
    RemoveDotsExample();
    UpperExample(RemoveChar(s, '.'));
  }

  lemma RemoveDotsExample()
    ensures RemoveChar(".pdf,.png", '.') == "pdf,png"
  {
    assert ".pdf,.png" == "." + ("pdf," + ("." + "png"));
    RemoveLeadingDots("pdf,", "png");
    assert "pdf," + "png" == "pdf,png";
  }

  lemma RemoveLeadingDots(a: string, b: string)
    requires '.' !in a && '.' !in b
    ensures RemoveChar("." + (a + ("." + b)), '.') == a + b
  {
    RemoveCharAppend(".", a + ("." + b), '.');
    RemoveCharAppend(a, "." + b, '.');
    RemoveCharAppend(".", b, '.');
    assert RemoveChar(".", '.') == "";
    RemoveCharAbsent(a, '.');
    RemoveCharAbsent(b, '.');
  }

  lemma UpperExample(s: string)
    requires s == "pdf,png"
    ensures ToUpper(s) == "PDF,PNG"
  {
    var u := ToUpper(s);
    assert u[0] == 'P' && u[1] == 'D' && u[2] == 'F' && u[3] == ',' && u[4] == 'P' && u[5] == 'N' && u[6] == 'G';
  }
}

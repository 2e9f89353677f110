/** The resume upload dialog: drag-and-drop and browse selection of one file,
    the simulated analysis, and reset. */
module ResumeUpload {
  import opened Wrappers
  import opened Text

  /** The parts of a browser `File` the dialog looks at. */
  datatype FileInfo = FileInfo(name: string, mimeType: string, size: nat)

  datatype ExtractedData = ExtractedData(skills: seq<string>, experience: seq<string>,
                                         education: seq<string>, certifications: seq<string>)

  /** The fixed result of the simulated analysis. */
  function MockExtraction(): (d: ExtractedData)
    ensures |d.skills| == 10 && |d.experience| == 2 && |d.education| == 2 && |d.certifications| == 2
  {
    ExtractedData(
      ["Python", "Machine Learning", "Data Analysis", "SQL", "TensorFlow",
       "Pandas", "NumPy", "Scikit-learn", "Git", "Docker"],
      ["Data Analyst at TechCorp (2020-2023)", "Junior Data Scientist at StartupXYZ (2019-2020)"],
      ["B.S. Computer Science, MIT (2019)", "Machine Learning Certification, Coursera (2021)"],
      ["AWS Certified Machine Learning", "Google Data Analytics Professional Certificate"])
  }

  /** The type check of a dropped file. */
  predicate Accepts(f: FileInfo) {
    f.mimeType == "application/pdf" || EndsWith(f.name, ".doc") || EndsWith(f.name, ".docx")
  }

  /** The held file after a drop of `files`: the first one, if accepted. */
  function AfterDrop(held: Option<FileInfo>, files: seq<FileInfo>): (r: Option<FileInfo>)
    ensures |files| > 0 && Accepts(files[0]) ==> r == Some(files[0])
    ensures !(|files| > 0 && Accepts(files[0])) ==> r == held
  {
    if |files| > 0 && Accepts(files[0]) then Some(files[0]) else held
  }

  /** The held file after a browse selection: the first one, unchecked. */
  function AfterSelect(held: Option<FileInfo>, files: seq<FileInfo>): (r: Option<FileInfo>)
    ensures |files| > 0 ==> r == Some(files[0])
    ensures |files| == 0 ==> r == held
  {
    if |files| > 0 then Some(files[0]) else held
  }

  /** A plain-text file is refused by a drop but taken by the file browser. */
  lemma SelectSkipsTypeCheck()
    ensures var f := FileInfo("resume.txt", "text/plain", 1024);
            AfterDrop(None, [f]) == None && AfterSelect(None, [f]) == Some(f)
  {
    var f := FileInfo("resume.txt", "text/plain", 1024);
    assert f.name[|f.name| - 4..] == ".txt";
    assert f.name[|f.name| - 5..] == "e.txt";
  }

  /** A Word file is accepted whatever type the browser reports for it. */
  lemma WordFilesAccepted(f: FileInfo)
    requires EndsWith(f.name, ".docx") || EndsWith(f.name, ".doc")
    ensures AfterDrop(None, [f]) == Some(f)
  {
  }

  /** The drop area: the browse prompt, or the held file with its clear
      button, disabled while the analysis runs. */
  datatype DropArea = DropPrompt | FileCard(name: string, size: nat, clearDisabled: bool)

  /** The dialog's two views. The upload view has the drop area (highlighted
      while a drag is over it), the progress panel and the Analyze/Remove
      buttons; the results view lists the extracted data and offers only
      "Update Profile" and "Upload Different Resume". */
  datatype DialogView =
    | UploadView(area: DropArea, highlighted: bool, progress: bool, actions: bool)
    | ResultsView(data: Option<ExtractedData>)

  class ResumeUpload {
    var isDragging: bool
    var file: Option<FileInfo>
    var isProcessing: bool
    var extractionComplete: bool
    var extractedData: Option<ExtractedData>

    /** The results are shown exactly when the extracted data is there, and
        it is always the fixed extraction. */
    predicate Valid()
      reads this
    {
      (extractionComplete <==> extractedData.Some?)
      && (extractedData.Some? ==> extractedData.value == MockExtraction())
    }

    constructor ()
      ensures !isDragging && file == None && !isProcessing && !extractionComplete && extractedData == None
      ensures Valid()
    {
      isDragging := false;
      file := None;
      isProcessing := false;
      extractionComplete := false;
      extractedData := None;
    }

    method HandleDragOver()
      modifies this
      ensures isDragging
      ensures file == old(file) && isProcessing == old(isProcessing)
      ensures extractionComplete == old(extractionComplete) && extractedData == old(extractedData)
    {
      isDragging := true;
    }

    method HandleDragLeave()
      modifies this
      ensures !isDragging
      ensures file == old(file) && isProcessing == old(isProcessing)
      ensures extractionComplete == old(extractionComplete) && extractedData == old(extractedData)
    {
      isDragging := false;
    }

    method HandleDrop(files: seq<FileInfo>)
      modifies this
      ensures !isDragging && file == AfterDrop(old(file), files)
      ensures isProcessing == old(isProcessing)
      ensures extractionComplete == old(extractionComplete) && extractedData == old(extractedData)
    {
      isDragging := false;
      file := AfterDrop(file, files);
    }

    method HandleFileSelect(files: seq<FileInfo>)
      modifies this
      ensures file == AfterSelect(old(file), files)
      ensures isDragging == old(isDragging) && isProcessing == old(isProcessing)
      ensures extractionComplete == old(extractionComplete) && extractedData == old(extractedData)
    {
      file := AfterSelect(file, files);
    }

    /** `processResume`, with the two-second wait taken as one step. With no
        file it does nothing; otherwise the results are set and, when
        `onSkillsExtracted` is given, it receives the ten skills (returned). */
    method ProcessResume(hasCallback: bool) returns (delivered: Option<seq<string>>)
      modifies this
      ensures old(file).None? ==> delivered == None && isProcessing == old(isProcessing)
                                  && extractionComplete == old(extractionComplete)
                                  && extractedData == old(extractedData)
      ensures old(file).Some? ==> !isProcessing && extractionComplete && extractedData == Some(MockExtraction())
      ensures old(file).Some? ==> delivered == (if hasCallback then Some(MockExtraction().skills) else None)
      ensures old(file).Some? ==> Render() == ResultsView(Some(MockExtraction()))
      ensures file == old(file) && isDragging == old(isDragging)
      ensures old(Valid()) ==> Valid()
    {
      delivered := None;
      if file.None? {
        return;
      }
      isProcessing := true;
      var mockData := MockExtraction();
      extractedData := Some(mockData);
      isProcessing := false;
      extractionComplete := true;
      if hasCallback {
        delivered := Some(mockData.skills);
      }
    }

    method HandleReset()
      modifies this
      ensures file == None && !isProcessing && !extractionComplete && extractedData == None
      ensures isDragging == old(isDragging)
      ensures Valid()
      ensures Render() == UploadView(DropPrompt, isDragging, false, false)
    {
      file := None;
      isProcessing := false;
      extractionComplete := false;
      extractedData := None;
    }

    /** What the dialog shows: the upload view until an analysis finishes,
        the results view after it. */
    function Render(): (v: DialogView)
      reads this
      ensures v.UploadView? <==> !extractionComplete
      ensures v.UploadView? ==>
                && v.highlighted == isDragging
                && (v.area.DropPrompt? <==> file.None?)
                && (v.area.FileCard? ==> v.area.name == file.value.name && v.area.clearDisabled == isProcessing)
                && v.progress == isProcessing
                && (v.actions <==> file.Some? && !isProcessing)
      ensures v.ResultsView? ==> v.data == extractedData
      ensures Valid() && v.ResultsView? ==> v.data == Some(MockExtraction())
    {
      if extractionComplete then ResultsView(extractedData)
      else
        var area := match file
          case None => DropPrompt
          case Some(f) => FileCard(f.name, f.size, isProcessing);
        UploadView(area, isDragging, isProcessing, file.Some? && !isProcessing)
    }
  }
}

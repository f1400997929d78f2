/**
 * The state behind the file list (project/src/components/FileList.tsx):
 * which transcriptions are unfolded, which files are ticked for analysis,
 * whether an analysis is running, and the conditions that show or disable
 * its controls.
 */
module FileList {
  import opened Types
  import Analyzer
  import StatsDashboard

  /** A copy of `s` with `id` added when it was missing and removed when it was there. */
  function Toggle(s: set<string>, id: string): (r: set<string>)
    ensures id in r <==> id !in s
    ensures forall x :: x != id ==> (x in r <==> x in s)
  {
    if id in s then s - {id} else s + {id}
  }

  /** Toggling the same id twice gives the set back. */
  lemma ToggleTwice(s: set<string>, id: string)
    ensures Toggle(Toggle(s, id), id) == s
  {
  }

  /** `files.filter(f => selectedFiles.has(f.id))`. */
  function SelectedFiles(files: seq<AudioFile>, selected: set<string>): (r: seq<AudioFile>)
    ensures |r| <= |files|
    ensures forall k :: 0 <= k < |r| ==> r[k].id in selected
  {
    if |files| == 0 then []
    else
      var rest := SelectedFiles(files[..|files| - 1], selected);
      if files[|files| - 1].id in selected then rest + [files[|files| - 1]] else rest
  }

  /** The analysed files are taken from the list, each at most as often as it is listed. */
  lemma {:induction false} SelectedFromList(files: seq<AudioFile>, selected: set<string>)
    ensures multiset(SelectedFiles(files, selected)) <= multiset(files)
    decreases |files|
  {
    if |files| > 0 {
      var front, f := files[..|files| - 1], files[|files| - 1];
      SelectedFromList(front, selected);
      assert files == front + [f];
      assert multiset(files) == multiset(front) + multiset{f};
    }
  }

  /** The analysed files are exactly the listed ones whose id is ticked. */
  lemma {:induction false} SelectedIds(files: seq<AudioFile>, selected: set<string>)
    ensures Ids(SelectedFiles(files, selected)) == Ids(files) * selected
    decreases |files|
  {
    if |files| > 0 {
      var front := files[..|files| - 1];
      var f := files[|files| - 1];
      var chosen := SelectedFiles(front, selected);
      SelectedIds(front, selected);
      assert files == front + [f];
      IdsSnoc(front, f);
      IntersectAdd(Ids(front), selected, f.id);
      if f.id in selected {
        assert SelectedFiles(files, selected) == chosen + [f];
        IdsSnoc(chosen, f);
      } else {
        assert SelectedFiles(files, selected) == chosen;
      }
    }
  }

  lemma IntersectAdd(a: set<string>, s: set<string>, x: string)
    ensures (a + {x}) * s == if x in s then a * s + {x} else a * s
  {
  }

  /** Ids of a list with no repeated id: one per file. */
  lemma {:induction false} DistinctIds(files: seq<AudioFile>)
    requires forall i, j :: 0 <= i < j < |files| ==> files[i].id != files[j].id
    ensures |Ids(files)| == |files|
    decreases |files|
  {
    if |files| > 0 {
      var front := files[..|files| - 1];
      var f := files[|files| - 1];
      DistinctIds(front);
      assert files == front + [f];
      IdsSnoc(front, f);
      assert forall k :: 0 <= k < |front| ==> front[k].id != f.id by {
        forall k | 0 <= k < |front|
          ensures front[k].id != f.id
        {
          assert front[k] == files[k];
        }
      }
    }
  }

  /** `config?.…`: the analysis settings the list was given, if any. */
  datatype ListConfig = NoConfig | Given(config: AnalysisConfig)

  /** The component's three pieces of state. */
  class FileListState {
    var expandedFiles: set<string>
    var selectedFiles: set<string>
    var isAnalyzing: bool

    constructor ()
      ensures expandedFiles == {} && selectedFiles == {} && !isAnalyzing
    {
      expandedFiles := {};
      selectedFiles := {};
      isAnalyzing := false;
    }

    /** `toggleTranscription`: unfold or fold one file. */
    method ToggleTranscription(fileId: string)
      modifies this
      ensures expandedFiles == Toggle(old(expandedFiles), fileId)
      ensures selectedFiles == old(selectedFiles) && isAnalyzing == old(isAnalyzing)
    {
      var newExpanded := expandedFiles;
      if fileId in newExpanded {
        newExpanded := newExpanded - {fileId};
      } else {
        newExpanded := newExpanded + {fileId};
      }
      expandedFiles := newExpanded;
    }

    /** `toggleFileSelection`: tick or untick one file. */
    method ToggleFileSelection(fileId: string)
      modifies this
      ensures selectedFiles == Toggle(old(selectedFiles), fileId)
      ensures expandedFiles == old(expandedFiles) && isAnalyzing == old(isAnalyzing)
    {
      var newSelected := selectedFiles;
      if fileId in newSelected {
        newSelected := newSelected - {fileId};
      } else {
        newSelected := newSelected + {fileId};
      }
      selectedFiles := newSelected;
    }

    /** The "select all" box is ticked when as many ids are selected as files are listed. */
    predicate AllChecked(files: seq<AudioFile>)
      reads this
    {
      |selectedFiles| == |files|
    }

    /**
     * `toggleAllFiles`: compares sizes only, so a selection of the same size
     * made of other ids (left from another page) is cleared as well.
     */
    method ToggleAllFiles(files: seq<AudioFile>)
      modifies this
      ensures old(AllChecked(files)) ==> selectedFiles == {}
      ensures !old(AllChecked(files)) ==> selectedFiles == Ids(files)
      ensures expandedFiles == old(expandedFiles) && isAnalyzing == old(isAnalyzing)
    {
      if |selectedFiles| == |files| {
        selectedFiles := {};
      } else {
        selectedFiles := Ids(files);
      }
    }

    /** The analyse button is off with nothing ticked or while an analysis runs. */
    predicate AnalyzeDisabled()
      reads this
    {
      |selectedFiles| == 0 || isAnalyzing
    }

    /**
     * `handleAnalyzeSelected`: without a config nothing happens; otherwise
     * the ticked files, in list order, are analysed with `enabled` forced on.
     * The selection is cleared only when every file was analysed, and the
     * busy flag is down again on every path.  `r` is the outcome of
     * `analyzeSelectedFiles`, which the handler logs and swallows.
     */
    method HandleAnalyzeSelected(files: seq<AudioFile>, config: ListConfig,
                                 replies: nat -> Analyzer.LlmReply, saveErrors: nat -> Option<Thrown>)
      returns (r: Option<Outcome<()>>, attempted: nat)
      modifies this
      ensures config.NoConfig? ==> (r.None? && attempted == 0 && selectedFiles == old(selectedFiles)
                                    && isAnalyzing == old(isAnalyzing))
      ensures config.Given? ==> r.Some? && !isAnalyzing
      ensures config.Given? ==> (var sent := SelectedFiles(files, old(selectedFiles));
        attempted <= |sent|
        && (r.value.Done? ==> attempted == |sent| && selectedFiles == {})
        && (r.value.Threw? ==> (selectedFiles == old(selectedFiles) && attempted >= 1
            && Analyzer.Analyzed(sent[attempted - 1], config.config.(enabled := true),
                                 replies(attempted - 1), saveErrors(attempted - 1)) == Threw(r.value.error)))
        && (forall k :: 0 <= k < attempted && (r.value.Done? || k < attempted - 1)
              ==> Analyzer.Analyzed(sent[k], config.config.(enabled := true), replies(k), saveErrors(k)).Done?))
      ensures expandedFiles == old(expandedFiles)
    {
      if config.NoConfig? {
        return None, 0;
      }
      isAnalyzing := true;
      var selectedFileObjects := SelectedFiles(files, selectedFiles);
      var settings := config.config.(enabled := true);
      var outcome;
      outcome, attempted := Analyzer.AnalyzeSelectedFiles(selectedFileObjects, settings, replies, saveErrors);
      if outcome.Done? {
        selectedFiles := {};
      }
      isAnalyzing := false;
      r := Some(outcome);
    }
  }

  /**
   * With distinct ids, "select all" on an empty selection ticks every file,
   * and a second click clears the selection again.
   */
  method SelectAllRoundTrip(files: seq<AudioFile>) returns (afterFirst: set<string>, afterSecond: set<string>)
    requires |files| > 0
    requires forall i, j :: 0 <= i < j < |files| ==> files[i].id != files[j].id
    ensures afterFirst == Ids(files)
    ensures afterSecond == {}
  {
    var state := new FileListState();
    state.ToggleAllFiles(files);
    afterFirst := state.selectedFiles;
    DistinctIds(files);
    state.ToggleAllFiles(files);
    afterSecond := state.selectedFiles;
  }

  /** The pager props. */
  datatype Pagination = Pagination(currentPage: int, totalPages: int)

  predicate ShowPager(p: Option<Pagination>)
  {
    p.Some? && p.value.totalPages > 1
  }

  predicate PrevDisabled(p: Pagination)
  {
    p.currentPage == 1
  }

  predicate NextDisabled(p: Pagination)
  {
    p.currentPage == p.totalPages
  }

  /** From a page in range, an enabled arrow leads to a page in range. */
  lemma NavigationStaysInRange(p: Pagination)
    requires 1 <= p.currentPage <= p.totalPages
    ensures !PrevDisabled(p) ==> 1 <= p.currentPage - 1 <= p.totalPages
    ensures !NextDisabled(p) ==> 1 <= p.currentPage + 1 <= p.totalPages
    ensures p.totalPages == 1 ==> PrevDisabled(p) && NextDisabled(p)
  {
  }

  /** The expand arrow: a completed file with a transcription or an analysis to show. */
  predicate ShowExpand(file: AudioFile)
  {
    file.status == Completed && (Truthy(file.transcription) || file.analysis.Some?)
  }

  /** The body below a row is drawn for a completed file whose id is unfolded. */
  predicate ShowBody(file: AudioFile, expanded: set<string>)
  {
    file.status == Completed && file.id in expanded
  }

  /** Toggling a file with nothing to show leaves its row folded; toggling twice folds it back. */
  lemma ExpandToggles(file: AudioFile, expanded: set<string>)
    ensures file.status != Completed ==> !ShowBody(file, Toggle(expanded, file.id))
    ensures file.status == Completed ==> (ShowBody(file, Toggle(expanded, file.id)) <==> !ShowBody(file, expanded))
    ensures ShowBody(file, Toggle(Toggle(expanded, file.id), file.id)) == ShowBody(file, expanded)
  {
    ToggleTwice(expanded, file.id);
  }

  /** The list's own `getTemperatureColor`. */
  function TemperatureColor(t: int): string
  {
    if t >= 7 then "text-green-500" else if t <= 4 then "text-red-500" else "text-yellow-500"
  }

  /** The list's colours mark the same three buckets as the statistics page. */
  lemma ListColoursFollowBands(t: int)
    ensures TemperatureColor(t) == "text-red-500" <==> StatsDashboard.BandOf(t) == StatsDashboard.Low
    ensures TemperatureColor(t) == "text-yellow-500" <==> StatsDashboard.BandOf(t) == StatsDashboard.Medium
    ensures TemperatureColor(t) == "text-green-500" <==> StatsDashboard.BandOf(t) == StatsDashboard.High
    ensures StatsDashboard.TemperatureBackground(t as real) == "bg-red-50 dark:bg-red-900/20"
            <==> TemperatureColor(t) == "text-red-500"
  {
  }
}

/** Which screen the component renders for a given state, what the
    navigation bar shows, and the fallbacks of the summary screen. */
module View {

  import opened Catalog
  import opened Wizard

  datatype Screen =
    | TerminalScreen
    | SummaryScreen
    | CategoryScreen(index: nat)   // the options of `ConfigOptions[index]`
    | FileScreen

  /** The screen dispatch: connected shows the terminal, else complete shows
      the summary, else a step below the category count shows that category,
      else the file step. */
  function ScreenOf(step: nat, isComplete: bool, isConnected: bool): (r: Screen)
    ensures r.CategoryScreen? ==> r.index < CategoryCount && r.index == step
    ensures isConnected <==> r == TerminalScreen
    ensures r == SummaryScreen <==> isComplete && !isConnected
  {
    if isConnected then TerminalScreen
    else if isComplete then SummaryScreen
    else if step < CategoryCount then CategoryScreen(step)
    else FileScreen
  }

  /** A category screen always indexes an existing catalogue entry. */
  lemma CategoryScreenInBounds(step: nat, isComplete: bool, isConnected: bool)
    ensures var r := ScreenOf(step, isComplete, isConnected);
      r.CategoryScreen? ==> r.index < |ConfigOptions|
  {
    CatalogSize();
  }

  /** Back and Next are rendered only while configuring. */
  predicate ShowsNavigation(isComplete: bool, isConnected: bool) {
    !isComplete && !isConnected
  }

  /** The Back button is disabled on the first step. */
  predicate BackDisabled(step: nat) {
    step == 0
  }

  /** The label of the forward button. */
  function NextLabel(step: nat): string {
    if step < CategoryCount + 1 then "Next" else "Finish"
  }

  /** While configuring, steps `0..5` show their category and steps 6 and 7
      both show the file step. */
  lemma ConfiguringScreens(step: nat)
    requires step <= LastStep
    ensures step < 6 <==> ScreenOf(step, false, false) == CategoryScreen(step)
    ensures step == 6 || step == 7 <==> ScreenOf(step, false, false) == FileScreen
  {
  }

  /** The navigation bar is shown exactly on the category and file screens,
      so no wizard control is reachable from the summary or the terminal. */
  lemma NavigationOnlyWhileConfiguring(step: nat, isComplete: bool, isConnected: bool)
    ensures ShowsNavigation(isComplete, isConnected)
        <==> (ScreenOf(step, isComplete, isConnected).CategoryScreen?
              || ScreenOf(step, isComplete, isConnected) == FileScreen)
  {
  }

  /** The button reads "Finish" exactly when pressing it completes the
      configuration instead of moving on, that is on the last step. */
  lemma FinishLabelMeansCompletion(step: nat)
    requires step <= LastStep
    ensures NextLabel(step) == "Finish" <==> Advance(Nav(step, false)).complete
    ensures NextLabel(step) == "Finish" <==> step == 7
  {
  }

  /** Back is disabled exactly where pressing it would do nothing. */
  lemma BackDisabledMeansNoOp(step: nat, complete: bool)
    ensures BackDisabled(step) <==> Retreat(Nav(step, complete)) == Nav(step, complete)
  {
  }

  // ---------------------------------------------------------------------
  // The summary screen
  // ---------------------------------------------------------------------

  const NotSelected := "Not selected"
  const NotProvided := "Not provided"
  const NoFilesAdded := "No files added"

  /** `config[id] || 'Not selected'`: a missing or empty selection falls back. */
  function SelectionText(config: map<string, string>, id: string): (r: string)
    ensures id in config && config[id] != "" ==> r == config[id]
    ensures id !in config || config[id] == "" ==> r == NotSelected
  {
    if id in config && config[id] != "" then config[id] else NotSelected
  }

  /** `githubRepo || 'Not provided'`. */
  function RepositoryText(repo: string): (r: string)
    ensures repo != "" ==> r == repo
    ensures repo == "" ==> r == NotProvided
  {
    if repo != "" then repo else NotProvided
  }

  /** The file section lists the names, or says that there are none. */
  datatype FilesView = FileItems(names: seq<string>) | NoFiles

  function FilesSection(files: seq<string>): (r: FilesView)
    ensures r == NoFiles <==> files == []
    ensures r.FileItems? ==> r.names == files
  {
    if |files| > 0 then FileItems(files) else NoFiles
  }

  datatype Summary = Summary(selections: seq<string>, repository: string, files: FilesView)

  /** The summary: one line per category in catalogue order, the repository
      and the files, each with its fallback. */
  function SummaryOf(config: map<string, string>, repo: string, files: seq<string>): (r: Summary)
    ensures |r.selections| == CategoryCount
    ensures forall i :: 0 <= i < CategoryCount ==> r.selections[i] == SelectionText(config, ConfigOptions[i].id)
    ensures r.repository == RepositoryText(repo) && r.files == FilesSection(files)
  {
    var ids := Ids();
    Summary(seq(|ids|, i requires 0 <= i < |ids| => SelectionText(config, ids[i])),
            RepositoryText(repo), FilesSection(files))
  }

  /** After selecting a non-empty value for a category, the summary shows it
      on that category's line and the other lines are as before. */
  lemma SummaryShowsSelection(config: map<string, string>, repo: string, files: seq<string>,
                              i: nat, value: string)
    requires i < CategoryCount && value != ""
    ensures var after := SummaryOf(Select(config, ConfigOptions[i].id, value), repo, files);
      && after.selections[i] == value
      && forall j :: 0 <= j < CategoryCount && j != i
           ==> after.selections[j] == SummaryOf(config, repo, files).selections[j]
  {
    CatalogWellFormed();
  }

  /** Selecting the empty string reads as no selection. */
  lemma EmptySelectionNotSelected(config: map<string, string>, id: string)
    ensures SelectionText(Select(config, id, ""), id) == NotSelected
  {
  }

  /** With nothing entered, every line of the summary shows its fallback. */
  lemma FreshSummary()
    ensures SummaryOf(map[], "", []) == Summary(seq(CategoryCount, _ => NotSelected), NotProvided, NoFiles)
  {
  }
}

/** `lib/mock-data.ts`: the fixed accounts and recent files, and the mock
    search over the files. */
module MockData {
  import opened Types
  import opened Text
  import opened Seqs

  const MockAccounts: seq<CloudAccount> := [
    CloudAccount("1", "Personal Drive", GoogleDrive, "user@example.com", Synced, Some("2023-06-15T10:31:00Z"), None),
    CloudAccount("2", "Work Drive", GoogleDrive, "work@company.com", Syncing, None, None),
    CloudAccount("3", "Project Files", Dropbox, "projects@example.com", Error, None,
                 Some("Authentication failed. Please reconnect."))
  ]

  // The long snippets are written in pieces, each one string value, so that
  // the facts proved about them stay small; the proposal is cut around its
  // only 'b'.
  const ProposalHead: string := "This proposal outlines the key "
  const ProposalRest: string := "jectives and milestones for "
  const ProposalTail: string := "the Q3 marketing campaign..."
  const ProposalSnippet: string := ProposalHead + "ob" + ProposalRest + ProposalTail
  const BudgetSnippet: string :=
    "Q3 budget allocation for " + "marketing, development, and " + "operations departments."
  const MeetingHead: string := "Notes from the weekly team "
  const MeetingMiddle: string := "meeting discussing project "
  const MeetingTail: string := "progress and upcoming deadlines."
  const MeetingSnippet: string := MeetingHead + MeetingMiddle + MeetingTail

  const File1: FileItem := FileItem("file1", "Project Proposal.pdf", Pdf, GoogleDrive, "Personal Drive",
    Some("user@example.com"), Some(ProposalSnippet), "2023-06-15T09:45:00Z", "https://drive.google.com/file/d/abc123", None)
  const File2: FileItem := FileItem("file2", "Budget Spreadsheet.xlsx", Spreadsheet, GoogleDrive, "Work Drive",
    Some("work@company.com"), Some(BudgetSnippet), "2023-06-14T16:20:00Z", "https://drive.google.com/file/d/def456", None)
  const File3: FileItem := FileItem("file3", "Meeting Notes.doc", Doc, Dropbox, "Project Files",
    Some("projects@example.com"), Some(MeetingSnippet), "2023-06-14T11:15:00Z", "https://dropbox.com/file/ghi789", None)
  const File4: FileItem := FileItem("file4", "Product Mockup.png", Image, GoogleDrive, "Personal Drive",
    Some("user@example.com"), None, "2023-06-13T14:30:00Z", "https://drive.google.com/file/d/jkl012", None)
  const File5: FileItem := FileItem("file5", "Company Podcast.mp3", Audio, OneDrive, "Personal Drive",
    Some("user@example.com"), None, "2023-05-20T16:30:00Z", "https://onedrive.com/file/abc890", None)

  const MockRecentFiles: seq<FileItem> := [File1, File2, File3, File4, File5]

  /** The filter callback of `searchFiles`: the lower-cased name, or the
      lower-cased snippet when there is one, includes the lower-cased query. */
  predicate FileMatches(file: FileItem, lowerQuery: string)
    ensures FileMatches(file, lowerQuery) && file.snippet.None? ==> Includes(ToLower(file.name), lowerQuery)
  {
    Includes(ToLower(file.name), lowerQuery)
    || (file.snippet.Some? && Includes(ToLower(file.snippet.value), lowerQuery))
  }

  /** `searchFiles`: only the empty query short-circuits; any other query,
      blanks included, filters the fixture case-insensitively. */
  function SearchFiles(query: string): (r: seq<FileItem>)
    ensures query == "" ==> r == []
    ensures IsSubsequence(r, MockRecentFiles)
    ensures forall i :: 0 <= i < |r| ==> FileMatches(r[i], ToLower(query))
    ensures forall f :: f in MockRecentFiles && query != "" && FileMatches(f, ToLower(query)) ==> f in r
  {
    if query == "" then EmptyIsSubsequence(MockRecentFiles); []
    else
      var lowerQuery := ToLower(query);
      Filter((file: FileItem) => FileMatches(file, lowerQuery), MockRecentFiles)
  }

  /** The result depends on the query only through its lower-cased form. */
  lemma SearchIgnoresCase(query: string)
    ensures SearchFiles(query) == SearchFiles(ToLower(query))
  {
    ToLowerIdempotent(query);
  }

  /** A file without a snippet is found exactly when its name contains the query. */
  lemma SnippetlessMatchesOnName(file: FileItem, query: string)
    requires file in MockRecentFiles && file.snippet.None?
    ensures file in SearchFiles(query) <==> query != "" && Includes(ToLower(file.name), ToLower(query))
  {
  }

  /** A blank query is not special-cased: " " occurs in every fixture name. */
  lemma SearchBlankReturnsAll()
    ensures SearchFiles(" ") == MockRecentFiles
  {
    assert ToLower(" ") == " ";
    CharIncluded(ToLower(File1.name), ' ', 7);
    CharIncluded(ToLower(File2.name), ' ', 6);
    CharIncluded(ToLower(File3.name), ' ', 7);
    CharIncluded(ToLower(File4.name), ' ', 7);
    CharIncluded(ToLower(File5.name), ' ', 7);
    FilterKeepsAll((file: FileItem) => FileMatches(file, " "), MockRecentFiles);
  }

  /** Searching "budget" finds exactly the budget spreadsheet. */
  lemma SearchBudget()
    ensures SearchFiles("budget") == [File2]
  {
    var q := "budget";
    assert ToLower(q) == q;
    var p := (file: FileItem) => FileMatches(file, q);
    BudgetVerdicts();
    assert !p(File1) && p(File2) && !p(File3) && !p(File4) && !p(File5);
    assert MockRecentFiles == [File1] + [File2] + [File3] + [File4] + [File5];
    FilterAppend(p, [File1] + [File2] + [File3] + [File4], [File5]);
    FilterAppend(p, [File1] + [File2] + [File3], [File4]);
    FilterAppend(p, [File1] + [File2], [File3]);
    FilterAppend(p, [File1], [File2]);
  }

  /** Which fixture files "budget" matches: only file2, by its name. */
  lemma BudgetVerdicts()
    ensures !FileMatches(File1, "budget") && FileMatches(File2, "budget")
    ensures !FileMatches(File3, "budget") && !FileMatches(File4, "budget") && !FileMatches(File5, "budget")
  {
    File1Verdict();
    BudgetInFile2Name();
    File3Verdict();
    File4Verdict();
    File5Verdict();
  }

  // file1: no 'b' in the name; in the snippet the only 'b' is followed by 'j'
  lemma File1Verdict()
    ensures !FileMatches(File1, "budget")
  {
    NameWithoutB(File1.name);
    NoBudgetInProposal();
  }

  // file3 to file5: no 'b' anywhere
  lemma File3Verdict()
    ensures !FileMatches(File3, "budget")
  {
    NameWithoutB(File3.name);
    MeetingSnippetWithoutB();
  }

  lemma MeetingSnippetWithoutB()
    ensures !Includes(ToLower(MeetingSnippet), "budget")
  {
    MeetingHeadWithoutB();
    MeetingMiddleWithoutB();
    MeetingTailWithoutB();
    NameWithoutB(MeetingSnippet);
  }

  lemma MeetingHeadWithoutB() ensures 'b' !in MeetingHead && 'B' !in MeetingHead {}
  lemma MeetingMiddleWithoutB() ensures 'b' !in MeetingMiddle && 'B' !in MeetingMiddle {}
  lemma MeetingTailWithoutB() ensures 'b' !in MeetingTail && 'B' !in MeetingTail {}

  lemma File4Verdict()
    ensures !FileMatches(File4, "budget")
  {
    NameWithoutB(File4.name);
  }

  lemma File5Verdict()
    ensures !FileMatches(File5, "budget")
  {
    NameWithoutB(File5.name);
  }

  lemma NameWithoutB(s: string)
    requires 'b' !in s && 'B' !in s
    ensures !Includes(ToLower(s), "budget")
  {
    AbsentAfterLower(s, 'B');
    MissingFirstCharExcludes(ToLower(s), "budget");
  }

  lemma BudgetInFile2Name()
    ensures Includes(ToLower(File2.name), "budget")
  {
    var n := File2.name;
    assert n == "Budget" + " Spreadsheet.xlsx";
    ToLowerAppend("Budget", " Spreadsheet.xlsx");
    assert ToLower("Budget") == "budget";
    assert MatchesAt(ToLower(n), "budget", 0);
  }

  /** The proposal snippet does not contain "budget": its one 'b' is followed by 'j'. */
  lemma NoBudgetInProposal()
    ensures !Includes(ToLower(ProposalSnippet), "budget")
  {
    ProposalLowerSplit();
    ProposalPiecesWithoutB();
    PairExcluded(ToLower(ProposalHead) + "o", 'b', ToLower(ProposalRest) + ToLower(ProposalTail), "budget");
  }

  lemma ProposalLowerSplit()
    ensures ToLower(ProposalSnippet)
      == (ToLower(ProposalHead) + "o") + ['b'] + (ToLower(ProposalRest) + ToLower(ProposalTail))
  {
    ToLowerAppend(ProposalHead + "ob" + ProposalRest, ProposalTail);
    ToLowerAppend(ProposalHead + "ob", ProposalRest);
    ToLowerAppend(ProposalHead, "ob");
    assert ToLower("ob") == "o" + ['b'];
  }

  lemma ProposalPiecesWithoutB()
    ensures 'b' !in ToLower(ProposalHead) + "o"
    ensures 'b' !in ToLower(ProposalRest) + ToLower(ProposalTail)
    ensures ToLower(ProposalRest)[0] == 'j'
  {
    ProposalHeadWithoutB();
    ProposalRestWithoutB();
    ProposalTailWithoutB();
    AbsentAfterLower(ProposalHead, 'B');
    AbsentAfterLower(ProposalRest, 'B');
    AbsentAfterLower(ProposalTail, 'B');
  }

  lemma ProposalHeadWithoutB() ensures 'b' !in ProposalHead && 'B' !in ProposalHead {}
  lemma ProposalRestWithoutB() ensures 'b' !in ProposalRest && 'B' !in ProposalRest {}
  lemma ProposalTailWithoutB() ensures 'b' !in ProposalTail && 'B' !in ProposalTail {}
}

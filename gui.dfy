/**
 * The state machine underneath the installer window: choosing an install with the radio
 * list and the arrow keys, typing a custom location with Tab completion of directory
 * entries, numbered message popups, and the one-time OpenAsar consent.
 */
module Gui {
  import opened Wrappers
  import opened GoStrings

  // ---------------------------------------------------------------------------------------
  // Completion candidates

  /** A directory entry is offered when its lower-case name starts with the lower-case partial name. */
  predicate Matches(name: string, file: string)
  {
    file == "" || HasPrefix(Lower(name), Lower(file))
  }

  /** Reference definition: the entries that match `file`, in their directory order. */
  function Filtered(names: seq<string>, file: string): seq<string>
    decreases |names|
  {
    if names == [] then []
    else
      var last := names[|names| - 1];
      Filtered(names[..|names| - 1], file) + (if Matches(last, file) then [last] else [])
  }

  /** Exactly the matching entries are offered. */
  lemma {:induction false} FilteredMembership(names: seq<string>, file: string, x: string)
    ensures x in Filtered(names, file) <==> x in names && Matches(x, file)
    decreases |names|
  {
    if names != [] {
      var init := names[..|names| - 1];
      FilteredMembership(init, file, x);
      assert names == init + [names[|names| - 1]];
    }
  }

  /** Filtering keeps the directory order: it distributes over concatenation. */
  lemma {:induction false} FilteredConcat(a: seq<string>, b: seq<string>, file: string)
    ensures Filtered(a + b, file) == Filtered(a, file) + Filtered(b, file)
    decreases |b|
  {
    if b == [] {
      assert a + b == a;
    } else {
      var init := b[..|b| - 1];
      var last := b[|b| - 1];
      assert (a + b)[..|a + b| - 1] == a + init;
      assert (a + b)[|a + b| - 1] == last;
      FilteredConcat(a, init, file);
    }
  }

  /** With no partial name every entry is offered. */
  lemma {:induction false} FilteredAllWhenEmpty(names: seq<string>)
    ensures Filtered(names, "") == names
    decreases |names|
  {
    if names != [] {
      FilteredAllWhenEmpty(names[..|names| - 1]);
    }
  }

  /** The case of the partial name does not matter. */
  lemma {:induction false} FilteredCaseInsensitive(names: seq<string>, file: string)
    ensures Filtered(names, file) == Filtered(names, Lower(file))
    decreases |names|
  {
    LowerIdempotent(file);
    LowerEmpty(file);
    if names != [] {
      FilteredCaseInsensitive(names[..|names| - 1], file);
    }
  }

  /** An empty entry name is only offered to an empty partial name. */
  lemma EmptyNameMatchesOnlyEmpty(file: string)
    ensures Matches("", file) ==> file == ""
  {
    LowerEmpty(file);
  }

  // ---------------------------------------------------------------------------------------
  // Completion index

  /** The candidate a Tab inserts: the stored index, wrapped to 0 once it runs past the list. */
  function Slot(idx: nat, n: nat): (k: nat)
    requires 0 < n
    ensures k < n
    ensures idx < n ==> k == idx
  {
    if idx >= n then 0 else idx
  }

  /** The stored completion index after `tabs` completions over a list of `n`, starting from 0. */
  function IndexAfterTabs(tabs: nat, n: nat): nat
    requires 0 < n
  {
    if tabs == 0 then 0 else Slot(IndexAfterTabs(tabs - 1, n), n) + 1
  }

  /** The first `n` Tabs insert the candidates in list order. */
  lemma {:induction false} TabsFirstRound(tabs: nat, n: nat)
    requires 0 < n && tabs <= n
    ensures IndexAfterTabs(tabs, n) == tabs
    ensures tabs < n ==> Slot(IndexAfterTabs(tabs, n), n) == tabs
  {
    if tabs > 0 {
      TabsFirstRound(tabs - 1, n);
    }
  }

  /** After a full round of `n` Tabs the same candidate comes again: the list wraps around. */
  lemma {:induction false} TabsPeriodic(tabs: nat, n: nat)
    requires 0 < n
    ensures Slot(IndexAfterTabs(tabs + n, n), n) == Slot(IndexAfterTabs(tabs, n), n)
    ensures tabs > 0 ==> IndexAfterTabs(tabs + n, n) == IndexAfterTabs(tabs, n)
  {
    if tabs == 0 {
      TabsFirstRound(n, n);
    } else {
      TabsPeriodic(tabs - 1, n);
    }
  }

  // ---------------------------------------------------------------------------------------
  // Text buffer edits of the input widget's callback

  /** Removes `count` bytes at `pos`. */
  function DeleteBytes(s: string, pos: int, count: nat): (r: string)
    requires 0 <= pos && pos + count <= |s|
    ensures |r| == |s| - count
    ensures pos + count == |s| ==> r == s[..pos]
  {
    s[..pos] + s[pos + count..]
  }

  /** Inserts `t` at `pos`. */
  function InsertBytes(s: string, pos: int, t: string): (r: string)
    requires 0 <= pos <= |s|
    ensures |r| == |s| + |t|
    ensures pos == |s| ==> r == s + t
  {
    s[..pos] + t + s[pos..]
  }

  /**
   * After a Tab the text ends with what the next Tab replaces: the inserted candidate, or
   * the (then necessarily empty) partial name when the candidate is empty.
   */
  lemma CompletionEndsText(stem: string, candidate: string, file: string)
    requires Matches(candidate, file)
    ensures HasSuffix(stem + candidate, if candidate != "" then candidate else file)
  {
    EmptyNameMatchesOnlyEmpty(file);
    assert (stem + candidate)[|stem|..] == candidate;
  }

  // ---------------------------------------------------------------------------------------
  // Paths

  /** The typed path ends in a separator, so a new directory is being entered. */
  predicate IsNewDir(p: string)
  {
    HasSuffix(p, "/")
  }

  /** The typed path has moved to another directory than the one whose entries are listed. */
  predicate WentUpADir(p: string, listedDir: string)
  {
    !IsNewDir(p) && Dir(p) != listedDir
  }

  /** The partial file name being typed: the last path element, and "" for an empty input. */
  function PartialName(p: string): string
  {
    if p == "" then "" else GoBase(p)
  }

  /** The partial name occupies the end of the typed text. */
  lemma PartialNameIsSuffix(p: string)
    requires !IsNewDir(p)
    ensures HasSuffix(p, PartialName(p))
  {
    if p != "" {
      GoBaseIsLastElement(p);
    }
  }

  /**
   * Taking Go's base of an emptied input gives the partial name ".": it is longer than the
   * text, and entries such as ".git" still match it, so a Tab would delete from position -1.
   */
  lemma EmptyInputGoBaseOverrunsText()
    ensures GoBase("") == "." && |GoBase("")| > |""|
    ensures !HasSuffix("", GoBase(""))
    ensures Filtered([".git"], GoBase("")) == [".git"]
  {
    assert Lower(".git")[..1] == Lower(".");
  }

  // ---------------------------------------------------------------------------------------
  // Popups

  /** The popup id of the `id`-th message popup. */
  function ModalPopupId(id: nat): string
  {
    "#modal" + Itoa(id)
  }

  /** Different message numbers name different popups. */
  lemma ModalPopupIdsDistinct(a: nat, b: nat)
    requires a != b
    ensures ModalPopupId(a) != ModalPopupId(b)
  {
    if ModalPopupId(a) == ModalPopupId(b) {
      assert ModalPopupId(a)[6..] == Itoa(a) && ModalPopupId(b)[6..] == Itoa(b);
      ItoaInjective(a, b);
    }
  }

  /**
   * A message popup id is "#modal" followed by decimal digits only, so it never names the
   * OpenAsar confirmation popup.
   */
  lemma ModalPopupIdShape(id: nat)
    ensures HasPrefix(ModalPopupId(id), "#modal") && |ModalPopupId(id)| > 6
    ensures forall i :: 6 <= i < |ModalPopupId(id)| ==> '0' <= ModalPopupId(id)[i] <= '9'
    ensures ModalPopupId(id) != OpenAsarConfirmPopup
  {
    ItoaDigits(id);
    assert ModalPopupId(id)[1] == 'm' && OpenAsarConfirmPopup[1] == 'o';
  }

  /** What pressing the OpenAsar button leads to. */
  datatype OpenAsarStep =
    | Toggle   // install or uninstall right away
    | Confirm  // ask for consent first

  const OpenAsarConfirmPopup: string := "#openasar-confirm"

  // ---------------------------------------------------------------------------------------
  // The window's state

  class GuiState {
    /** The radio index of the custom location: one past the discovered installs. */
    const customChoiceIdx: nat
    var radioIdx: int

    var customDir: string
    var autoCompleteDir: string
    var autoCompleteFile: string
    var autoCompleteCandidates: seq<string>
    var autoCompleteIdx: nat
    var lastAutoComplete: string
    var didAutoComplete: bool

    var modalId: nat
    var modalTitle: string
    var modalMessage: string

    var acceptedOpenAsar: bool

    /** The selection is one of the installs or the custom location. */
    predicate RadioInRange()
      reads this
    {
      0 <= radioIdx <= customChoiceIdx
    }

    /** What the next Tab removes from the end of the text before inserting. */
    function Replaced(): string
      reads this
    {
      if lastAutoComplete != "" then lastAutoComplete else autoCompleteFile
    }

    /** The previous completion, or else the partial name, is what the text ends with. */
    predicate CompletionAnchored()
      reads this
    {
      HasSuffix(customDir, Replaced())
    }

    predicate Valid()
      reads this
    {
      RadioInRange() && CompletionAnchored()
    }

    /** The state at start-up, with `discordCount` installs found. */
    constructor (discordCount: nat)
      ensures customChoiceIdx == discordCount && radioIdx == 0
      ensures customDir == "" && autoCompleteDir == "" && autoCompleteFile == ""
      ensures autoCompleteCandidates == [] && autoCompleteIdx == 0
      ensures lastAutoComplete == "" && !didAutoComplete
      ensures modalId == 0 && modalTitle == "Oh No :(" && modalMessage == "You should never see this"
      ensures !acceptedOpenAsar
      ensures Valid()
    {
      customChoiceIdx := discordCount;
      radioIdx := 0;
      customDir, autoCompleteDir, autoCompleteFile := "", "", "";
      autoCompleteCandidates, autoCompleteIdx := [], 0;
      lastAutoComplete, didAutoComplete := "", false;
      modalId, modalTitle, modalMessage := 0, "Oh No :(", "You should never see this";
      acceptedOpenAsar := false;
    }

    // -------------------------------------------------------------------------------------
    // Custom location input

    /** The input widget stores what the user typed. */
    method WriteText(text: string)
      modifies this`customDir
      ensures customDir == text
    {
      customDir := text;
    }

    /**
     * The change handler. `entries` is the listing of `Dir(customDir)`, None when it cannot
     * be read.
     */
    method OnCustomInputChanged(entries: Option<seq<string>>)
      modifies this`radioIdx, this`autoCompleteDir, this`autoCompleteFile
      modifies this`autoCompleteCandidates, this`autoCompleteIdx
      modifies this`lastAutoComplete, this`didAutoComplete
      ensures radioIdx == if customDir != "" then customChoiceIdx else old(radioIdx)
      ensures !didAutoComplete
      ensures IsNewDir(customDir) || WentUpADir(customDir, old(autoCompleteDir)) ==>
                && autoCompleteDir == Dir(customDir)
                && autoCompleteIdx == 0
                && lastAutoComplete == ""
                && autoCompleteCandidates == (if entries.Some? then entries.value else [])
                && autoCompleteFile ==
                     (if WentUpADir(customDir, old(autoCompleteDir)) then PartialName(customDir) else "")
      ensures !IsNewDir(customDir) && !WentUpADir(customDir, old(autoCompleteDir)) ==>
                && autoCompleteDir == old(autoCompleteDir)
                && autoCompleteIdx == old(autoCompleteIdx)
                && autoCompleteCandidates == old(autoCompleteCandidates)
                && (old(didAutoComplete) ==>
                      autoCompleteFile == old(autoCompleteFile) && lastAutoComplete == old(lastAutoComplete))
                && (!old(didAutoComplete) ==>
                      autoCompleteFile == PartialName(customDir) && lastAutoComplete == "")
      ensures old(RadioInRange()) ==> RadioInRange()
      ensures !old(didAutoComplete) || old(CompletionAnchored()) ==> CompletionAnchored()
    {
      var p := customDir;
      if |p| != 0 {
        radioIdx := customChoiceIdx;
      }

      var dir := Dir(p);
      var isNewDir := IsNewDir(p);
      var wentUpADir := WentUpADir(p, autoCompleteDir);

      if isNewDir || wentUpADir {
        var listed: seq<string> := [];
        if entries.Some? {
          var names := entries.value;
          for i := 0 to |names|
            invariant listed == names[..i]
          {
            listed := listed + [names[i]];
          }
          assert names[..|names|] == names;
        }
        autoCompleteDir := dir;
        autoCompleteIdx := 0;
        lastAutoComplete := "";
        autoCompleteFile := if wentUpADir then PartialName(p) else "";
        autoCompleteCandidates := listed;
      } else if !didAutoComplete {
        autoCompleteFile := PartialName(p);
        lastAutoComplete := "";
      }

      assert customDir == p;
      didAutoComplete := false;
      if !isNewDir {
        PartialNameIsSuffix(p);
      }
      assert HasSuffix(p, "");
    }

    /** The completion candidates: the listed entries that match the partial name. */
    method MakeAutoComplete() returns (candidates: seq<string>)
      ensures candidates == Filtered(autoCompleteCandidates, autoCompleteFile)
    {
      var input := Lower(autoCompleteFile);
      candidates := [];
      for i := 0 to |autoCompleteCandidates|
        invariant candidates == Filtered(autoCompleteCandidates[..i], autoCompleteFile)
      {
        var e := autoCompleteCandidates[i];
        var file := Lower(e);
        if autoCompleteFile == "" || HasPrefix(file, input) {
          candidates := candidates + [e];
        }
        assert autoCompleteCandidates[..i + 1][..i] == autoCompleteCandidates[..i];
      }
      assert autoCompleteCandidates[..|autoCompleteCandidates|] == autoCompleteCandidates;
    }

    /** The candidates a Tab chooses from: the listed entries matching the partial name. */
    function Candidates(): seq<string>
      reads this
    {
      Filtered(autoCompleteCandidates, autoCompleteFile)
    }

    /**
     * Tab in the custom location input: replaces the previous completion, or else the
     * partial name, at the end of the text by the next candidate, wrapping around the list.
     */
    method Complete()
      requires Candidates() != [] ==> |Replaced()| <= |customDir|
      modifies this`customDir, this`autoCompleteIdx, this`lastAutoComplete, this`didAutoComplete
      ensures Candidates() == [] ==>
                && customDir == old(customDir)
                && autoCompleteIdx == old(autoCompleteIdx)
                && lastAutoComplete == old(lastAutoComplete)
                && didAutoComplete == old(didAutoComplete)
      ensures Candidates() != [] ==> didAutoComplete
      ensures Candidates() != [] ==>
                lastAutoComplete == Candidates()[Slot(old(autoCompleteIdx), |Candidates()|)]
      ensures Candidates() != [] ==> autoCompleteIdx == Slot(old(autoCompleteIdx), |Candidates()|) + 1
      ensures Candidates() != [] ==>
                forall tabs: nat :: old(autoCompleteIdx) == IndexAfterTabs(tabs, |Candidates()|) ==>
                  autoCompleteIdx == IndexAfterTabs(tabs + 1, |Candidates()|)
      ensures Candidates() != [] ==>
                customDir == old(customDir)[..|old(customDir)| - |old(Replaced())|] + lastAutoComplete
      ensures Candidates() != [] ==> CompletionAnchored()
      ensures old(CompletionAnchored()) ==> CompletionAnchored()
    {
      ghost var before, replaced, idx := customDir, Replaced(), autoCompleteIdx;
      var candidates := MakeAutoComplete();
      if |candidates| == 0 {
        return;
      }
      if autoCompleteIdx >= |candidates| {
        autoCompleteIdx := 0;
      }
      assert autoCompleteIdx == Slot(idx, |candidates|);
      forall tabs: nat | idx == IndexAfterTabs(tabs, |candidates|)
        ensures Slot(idx, |candidates|) + 1 == IndexAfterTabs(tabs + 1, |candidates|)
      {
        assert IndexAfterTabs(tabs + 1, |candidates|) == Slot(IndexAfterTabs(tabs, |candidates|), |candidates|) + 1;
      }

      didAutoComplete := true;

      var start := |customDir|;
      if lastAutoComplete != "" {
        start := start - |lastAutoComplete|;
        customDir := DeleteBytes(customDir, start, |lastAutoComplete|);
      } else if autoCompleteFile != "" {
        start := start - |autoCompleteFile|;
        customDir := DeleteBytes(customDir, start, |autoCompleteFile|);
      }
      assert start == |before| - |replaced| && customDir == before[..start];

      var k := autoCompleteIdx;
      lastAutoComplete := candidates[k];
      customDir := InsertBytes(customDir, start, lastAutoComplete);
      autoCompleteIdx := k + 1;
      assert customDir == before[..start] + candidates[k];

      FilteredMembership(autoCompleteCandidates, autoCompleteFile, candidates[k]);
      CompletionEndsText(before[..start], candidates[k], autoCompleteFile);
    }

    // -------------------------------------------------------------------------------------
    // Choosing an install

    /**
     * A radio button selects position `i`: an install's position in the list, or the custom
     * location's `customChoiceIdx`, the only positions that have a button.
     */
    method SelectRadio(i: int)
      requires 0 <= i <= customChoiceIdx
      modifies this`radioIdx
      ensures radioIdx == i
      ensures RadioInRange()
    {
      radioIdx := i;
    }

    /** The Up key moves the selection one place up, stopping at the first install. */
    method MoveUp()
      modifies this`radioIdx
      ensures radioIdx == if old(radioIdx) > 0 then old(radioIdx) - 1 else old(radioIdx)
      ensures old(radioIdx) - 1 <= radioIdx <= old(radioIdx)
      ensures old(RadioInRange()) ==> RadioInRange()
    {
      if radioIdx > 0 {
        radioIdx := radioIdx - 1;
      }
    }

    /** The Down key moves the selection one place down, stopping at the custom location. */
    method MoveDown()
      modifies this`radioIdx
      ensures radioIdx == if old(radioIdx) < customChoiceIdx then old(radioIdx) + 1 else old(radioIdx)
      ensures old(radioIdx) <= radioIdx <= old(radioIdx) + 1
      ensures old(RadioInRange()) ==> RadioInRange()
    {
      if radioIdx < customChoiceIdx {
        radioIdx := radioIdx + 1;
      }
    }

    // -------------------------------------------------------------------------------------
    // Popups and consent

    /** Stores a message and opens it in a popup with a fresh number. */
    method ShowModal(title: string, desc: string) returns (popup: string)
      modifies this`modalId, this`modalTitle, this`modalMessage
      ensures modalTitle == title && modalMessage == desc
      ensures modalId == old(modalId) + 1
      ensures popup == ModalPopupId(modalId)
      ensures forall earlier: nat :: earlier <= old(modalId) ==> popup != ModalPopupId(earlier)
    {
      modalTitle := title;
      modalMessage := desc;
      modalId := modalId + 1;
      popup := ModalPopupId(modalId);
      forall earlier: nat | earlier <= old(modalId)
        ensures popup != ModalPopupId(earlier)
      {
        ModalPopupIdsDistinct(modalId, earlier);
      }
    }

    /**
     * The OpenAsar button: goes ahead once consent was given or when the chosen install
     * already has OpenAsar (so the press uninstalls it); otherwise opens the consent popup.
     */
    method HandleOpenAsar(chosenIsOpenAsar: bool) returns (step: OpenAsarStep, popup: Option<string>)
      ensures step == Toggle <==> acceptedOpenAsar || chosenIsOpenAsar
      ensures popup == if step == Confirm then Some(OpenAsarConfirmPopup) else None
    {
      if acceptedOpenAsar || chosenIsOpenAsar {
        return Toggle, None;
      }
      return Confirm, Some(OpenAsarConfirmPopup);
    }

    /** The accept button of the consent popup: consent holds for the rest of the run. */
    method AcceptOpenAsar()
      modifies this`acceptedOpenAsar
      ensures acceptedOpenAsar
    {
      acceptedOpenAsar := true;
    }
  }
}

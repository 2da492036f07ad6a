/**
 * frontend/src/components/SearchForm: the landing-page search box, its three mode buttons and
 * the search modal it opens.
 */
module SearchForm {
  import opened Wrappers
  import opened Text

  datatype ModeButton = KeywordButton | ConditionButton | AreaButton

  datatype ModalType = ConditionModal | AreaModal

  /** The button a modal type highlights. */
  function ButtonOf(t: ModalType): (b: ModeButton)
    ensures b != KeywordButton
  {
    match t
    case ConditionModal => ConditionButton
    case AreaModal => AreaButton
  }

  /** The tab the modal opens on: 'area' exactly for the area modal, else 'condition'. */
  function InitialTab(t: ModalType): (key: string)
    ensures key == "area" <==> t == AreaModal
    ensures key != "area" ==> key == "condition"
  {
    if t == AreaModal then "area" else "condition"
  }

  /**
   * handleSearch's target: no navigation for a whitespace-only keyword, else `/shops?keyword=`
   * followed by the encoded trimmed keyword. encodeURIComponent is the parameter `encode`.
   */
  function SearchTarget(keyword: string, encode: string -> string): (target: Option<string>)
    ensures target.None? <==> AllWhitespace(keyword)
    ensures target.Some? ==> target.value == "/shops?keyword=" + encode(Trim(keyword))
  {
    TrimEmptyIff(keyword);
    if Trim(keyword) != "" then Some("/shops?keyword=" + encode(Trim(keyword))) else None
  }

  /** Surrounding whitespace does not change where a search goes. */
  lemma SearchTargetIgnoresPadding(keyword: string, encode: string -> string)
    ensures SearchTarget(Trim(keyword), encode) == SearchTarget(keyword, encode)
  {
    TrimIdempotent(keyword);
  }

  class SearchFormState {
    var activeButton: ModeButton
    var keyword: string
    var isModalOpen: bool
    var modalType: ModalType
    var initialActiveKey: string

    constructor ()
      ensures activeButton == KeywordButton && keyword == "" && !isModalOpen
      ensures modalType == ConditionModal && initialActiveKey == "condition"
    {
      activeButton := KeywordButton;
      keyword := "";
      isModalOpen := false;
      modalType := ConditionModal;
      initialActiveKey := "condition";
    }

    /** openModal: records the type, opens the modal, highlights its button and picks the first tab. */
    method OpenModal(t: ModalType)
      modifies this
      ensures modalType == t && isModalOpen && activeButton == ButtonOf(t)
      ensures initialActiveKey == InitialTab(t)
      ensures keyword == old(keyword)
    {
      modalType := t;
      isModalOpen := true;
      activeButton := ButtonOf(t);
      initialActiveKey := InitialTab(t);
    }

    /** The keyword button only highlights itself. */
    method SelectKeyword()
      modifies this
      ensures activeButton == KeywordButton
      ensures keyword == old(keyword) && isModalOpen == old(isModalOpen)
      ensures modalType == old(modalType) && initialActiveKey == old(initialActiveKey)
    {
      activeButton := KeywordButton;
    }

    /** The modal's onClose. */
    method CloseModal()
      modifies this
      ensures !isModalOpen
      ensures activeButton == old(activeButton) && modalType == old(modalType) && keyword == old(keyword)
      ensures initialActiveKey == old(initialActiveKey)
    {
      isModalOpen := false;
    }

    /** handleSearch: the route pushed, if any. */
    method HandleSearch(encode: string -> string) returns (pushed: Option<string>)
      ensures pushed == SearchTarget(keyword, encode)
    {
      var trimmed := Trim(keyword);
      if trimmed != "" {
        pushed := Some("/shops?keyword=" + encode(trimmed));
      } else {
        pushed := None;
      }
    }
  }
}

/**
 * The page-level navigation state: the active tab, the selected
 * conversation, whether the mobile sidebar is open, and whether page
 * scrolling is locked while it is.
 */
module Home {
  import opened Js
  import opened Seqs
  import opened Conversations

  /** The test `conversation => conversation.id === activeConversationId`; null equals no id. */
  function HasActiveId(activeId: Option<int>): Conversation -> bool {
    (c: Conversation) => activeId == Some(c.id)
  }

  /** `activeConversation`: the first conversation with the selected id, or null when none has it. */
  function ActiveConversationOf(cs: seq<Conversation>, activeId: Option<int>): (r: Option<Conversation>)
    ensures r.Some? ==> r.value in cs && activeId == Some(r.value.id)
    ensures r.None? <==> activeId.None? || forall i :: 0 <= i < |cs| ==> cs[i].id != activeId.value
  {
    var r := Find(cs, HasActiveId(activeId));
    assert forall i :: 0 <= i < |cs| ==> (HasActiveId(activeId)(cs[i]) <==> activeId == Some(cs[i].id));
    r
  }

  /** Selecting any conversation of the table by its id makes exactly that one active. */
  lemma SelectingFindsConversation(i: nat)
    requires i < |ConversationTable|
    ensures ActiveConversationOf(ConversationTable, Some(ConversationTable[i].id)) == Some(ConversationTable[i])
  {
    ConversationIdsDistinct();
    var id := ConversationTable[i].id;
    assert HasActiveId(Some(id))(ConversationTable[i]);
    var r := ActiveConversationOf(ConversationTable, Some(id));
    var k :| 0 <= k < |ConversationTable| && ConversationTable[k] == r.value;
    assert ConversationTable[k].id == id;
  }

  /** The conversation selected on mount, id 2, is the "Design Team" group. */
  lemma InitialConversationIsDesignTeam()
    ensures ActiveConversationOf(ConversationTable, Some(2)) == Some(ConversationTable[1])
    ensures ConversationTable[1].name == Some("Design Team")
  {
    SelectingFindsConversation(1);
  }

  /** The page's state. Whether the screen is narrow is an argument of each handler. */
  class HomeState {
    var activeTab: string
    var activeConversationId: Option<int>
    var isSidebarVisible: bool
    /** `document.body.style.overflow === "hidden"`. */
    var bodyOverflowHidden: bool

    /** Page scrolling is locked exactly while the sidebar is open. */
    ghost predicate Valid()
      reads this
    {
      bodyOverflowHidden == isSidebarVisible
    }

    constructor ()
      ensures activeTab == "messages" && activeConversationId.None?
      ensures !isSidebarVisible && !bodyOverflowHidden
      ensures Valid()
    {
      activeTab := "messages";
      activeConversationId := None;
      isSidebarVisible := false;
      bodyOverflowHidden := false;
    }

    /** `activeConversation`: the conversation of the table with the selected id, or null. */
    function ActiveConversation(): (r: Option<Conversation>)
      reads this
      ensures r.Some? ==> r.value in ConversationTable && activeConversationId == Some(r.value.id)
      ensures r.None? <==> activeConversationId.None? || forall i :: 0 <= i < |ConversationTable| ==> ConversationTable[i].id != activeConversationId.value
    {
      ActiveConversationOf(ConversationTable, activeConversationId)
    }

    /** The mount effect: with conversations to show and none selected, select the one with id 2. */
    method Mount()
      modifies this
      ensures old(activeConversationId).None? ==> activeConversationId == Some(2)
      ensures old(activeConversationId).Some? ==> activeConversationId == old(activeConversationId)
      ensures activeTab == old(activeTab) && isSidebarVisible == old(isSidebarVisible)
      ensures bodyOverflowHidden == old(bodyOverflowHidden)
    {
      if |ConversationTable| > 0 && activeConversationId.None? {
        activeConversationId := Some(2);
      }
    }

    /** Closing the sidebar runs the effect that unlocks page scrolling. */
    method CloseSidebar()
      modifies this
      ensures !isSidebarVisible && !bodyOverflowHidden
      ensures activeTab == old(activeTab) && activeConversationId == old(activeConversationId)
    {
      isSidebarVisible := false;
      bodyOverflowHidden := false;
    }

    /**
     * `handleTabChange`: switches the tab, closes the sidebar on a narrow
     * screen, and clears the selection on any tab other than "messages".
     */
    method TabChange(tab: string, isMobile: bool)
      requires Valid()
      modifies this
      ensures Valid()
      ensures activeTab == tab
      ensures tab != "messages" ==> activeConversationId.None?
      ensures tab == "messages" ==> activeConversationId == old(activeConversationId)
      ensures isMobile ==> !isSidebarVisible
      ensures !isMobile ==> isSidebarVisible == old(isSidebarVisible)
    {
      activeTab := tab;
      if isMobile {
        CloseSidebar();
      }
      if tab != "messages" {
        activeConversationId := None;
      }
    }

    /** `handleSelectConversation`: selects the id and closes the sidebar on a narrow screen. */
    method SelectConversation(id: int, isMobile: bool)
      requires Valid()
      modifies this
      ensures Valid()
      ensures activeConversationId == Some(id) && activeTab == old(activeTab)
      ensures isMobile ==> !isSidebarVisible
      ensures !isMobile ==> isSidebarVisible == old(isSidebarVisible)
    {
      activeConversationId := Some(id);
      if isMobile {
        CloseSidebar();
      }
    }

    /** `handleBack`: clears the selection on a narrow screen and does nothing on a wide one. */
    method Back(isMobile: bool)
      requires Valid()
      modifies this
      ensures Valid()
      ensures isMobile ==> activeConversationId.None?
      ensures !isMobile ==> activeConversationId == old(activeConversationId)
      ensures activeTab == old(activeTab) && isSidebarVisible == old(isSidebarVisible)
    {
      if isMobile {
        activeConversationId := None;
      }
    }

    /** `toggleSidebar`: flips the sidebar and locks page scrolling exactly when it opens. */
    method ToggleSidebar()
      requires Valid()
      modifies this
      ensures Valid()
      ensures isSidebarVisible == !old(isSidebarVisible)
      ensures bodyOverflowHidden == isSidebarVisible
      ensures activeTab == old(activeTab) && activeConversationId == old(activeConversationId)
    {
      var wasVisible := isSidebarVisible;
      isSidebarVisible := !wasVisible;
      if !wasVisible {
        bodyOverflowHidden := true;
      } else {
        bodyOverflowHidden := false;
      }
    }
  }
}

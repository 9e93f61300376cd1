/**
  The popup page's state (popup.js): its copy of the capture store, the capture flag, the
  selection, the filter inputs, the rendered rows and the detail panel, and the handlers
  that change them.
 */
module Popup {
  import opened Wrappers
  import opened JsValue
  import opened CaptureStore
  import opened Projection

  class View {
    /** `capturedRequests` */
    var captured: Store
    /** `isCapturing` */
    var capturing: bool
    /** `selectedRequestId`: null, or the `data-id` string of the row last clicked. */
    var selected: Value
    /** The text of the filter input. */
    var filterText: string
    /** The value of the method drop-down; '' for all methods. */
    var methodFilter: string
    /** The records the request list shows, in order. */
    var rows: Store
    /** The detail tab carrying the `active` class, if any. */
    var activeTab: Option<Tab>
    /** Whether the detail panel is displayed. */
    var panelVisible: bool
    /** What the detail panel last showed. */
    var detail: Option<Detail>
    /** The actions sent to the background page, oldest first. */
    var sent: seq<string>
    /** What this page last wrote to or read from the `capturedRequests` storage key. */
    ghost var persisted: Store
    /** What this page last wrote to or read from the `isCapturing` storage key. */
    ghost var persistedCapturing: bool

    /** The request list shows the filtered store. */
    ghost predicate Rendered()
      reads this
    {
      rows == Filter(captured, filterText, methodFilter)
    }

    /**
      The page after the storage read of popup.js:18-24; the active tab comes from the
      page's markup.
     */
    constructor Load(stored: Option<Store>, storedCapturing: Value, markupTab: Option<Tab>)
      ensures captured == stored.GetOr([]) && persisted == captured
      ensures capturing == Truthy(storedCapturing) && persistedCapturing == capturing
      ensures selected == Null && filterText == "" && methodFilter == ""
      ensures activeTab == markupTab && !panelVisible && detail == None && sent == []
      ensures Rendered()
    {
      captured := stored.GetOr([]);
      capturing := Truthy(storedCapturing);
      selected := Null;
      filterText := "";
      methodFilter := "";
      activeTab := markupTab;
      panelVisible := false;
      detail := None;
      sent := [];
      persisted := stored.GetOr([]);
      persistedCapturing := Truthy(storedCapturing);
      new;
      RenderRequests();
    }

    /** The list part of `renderRequests` (popup.js:105-143). */
    method RenderRequests()
      modifies this`rows
      ensures Rendered()
    {
      rows := Filter(captured, filterText, methodFilter);
    }

    /** The capture button (popup.js:27-33). */
    method CaptureClicked()
      modifies this`capturing, this`sent, this`persistedCapturing
      ensures capturing && persistedCapturing
      ensures sent == old(sent) + ["startCapture"]
    {
      capturing := true;
      sent := sent + ["startCapture"];
      persistedCapturing := true;
    }

    /** The pause button (popup.js:36-42). */
    method PauseClicked()
      modifies this`capturing, this`sent, this`persistedCapturing
      ensures !capturing && !persistedCapturing
      ensures sent == old(sent) + ["stopCapture"]
    {
      capturing := false;
      sent := sent + ["stopCapture"];
      persistedCapturing := false;
    }

    /** The clear button (popup.js:45-53): empty store, no selection, panel hidden. */
    method ClearClicked()
      modifies this`captured, this`selected, this`panelVisible, this`rows, this`persisted, this`sent
      ensures captured == [] && persisted == [] && rows == []
      ensures selected == Null && !panelVisible
      ensures sent == old(sent) + ["clearRequests"]
      ensures Rendered()
    {
      captured := [];
      selected := Null;
      panelVisible := false;
      RenderRequests();
      persisted := [];
      sent := sent + ["clearRequests"];
    }

    /** Typing in the filter input (popup.js:71). */
    method FilterInput(text: string)
      modifies this`filterText, this`rows
      ensures filterText == text && Rendered()
    {
      filterText := text;
      RenderRequests();
    }

    /** Choosing in the method drop-down (popup.js:72). */
    method MethodChanged(method': string)
      modifies this`methodFilter, this`rows
      ensures methodFilter == method' && Rendered()
    {
      methodFilter := method';
      RenderRequests();
    }

    /**
      A click on a detail tab (popup.js:76-86): the tab becomes active, and the selected
      record, if found, is shown on it.
     */
    method TabClicked(tab: Tab)
      modifies this`activeTab, this`detail
      ensures activeTab == Some(tab)
      ensures detail == match FindRequest(captured, selected)
        case Some(r) => Some(ShowDetailContent(r, tab))
        case None => old(detail)
    {
      activeTab := Some(tab);
      var found := FindRequest(captured, selected);
      if found.Some? {
        detail := Some(ShowDetailContent(found.value, tab));
      }
    }

    /**
      A click on a row (popup.js:147-156): the row's id is selected whatever was selected
      before, and the record, if found, is shown on the overview; the active tab is left alone.
     */
    method RowClicked(rowId: string)
      modifies this`selected, this`rows, this`panelVisible, this`detail
      ensures selected == Str(rowId)
      ensures Rendered()
      ensures match FindRequest(captured, Str(rowId))
        case Some(r) => panelVisible && detail == Some(OverviewDetail(RenderOverview(r)))
        case None => panelVisible == old(panelVisible) && detail == old(detail)
    {
      selected := Str(rowId);
      RenderRequests();
      var found := FindRequest(captured, Str(rowId));
      if found.Some? {
        panelVisible := true;
        detail := Some(ShowDetailContent(found.value, OverviewTab));
      }
    }

    /**
      The merge of popup.js:311-330, step by step: overlay the entry with the same id in
      place or prepend the record, drop null entries, keep the newest 200.
     */
    method MergeRequest(incoming: Record)
      modifies this`captured
      ensures captured == Merge(old(captured), incoming)
    {
      var existingIndex := FindIndex(captured, Get(incoming, "id"));
      if existingIndex.Some? {
        var i := existingIndex.value;
        captured := captured[i := Some(Overlay(captured[i].value, incoming))];
      } else {
        captured := [Some(incoming)] + captured;
      }
      captured := Compact(captured);
      if |captured| > Capacity {
        captured := captured[..Capacity];
      }
    }

    /** The `newRequest` message handler (popup.js:302-351). */
    method OnMessage(message: Value)
      modifies this`captured, this`persisted, this`rows, this`detail
      ensures !(StrictEq(Prop(message, "action"), Str("newRequest")) && Accepts(Prop(message, "request"))) ==>
        captured == old(captured) && persisted == old(persisted) && rows == old(rows) && detail == old(detail)
      ensures StrictEq(Prop(message, "action"), Str("newRequest")) && Accepts(Prop(message, "request")) ==>
        && captured == Merge(old(captured), Prop(message, "request").fields)
        && persisted == captured
        && NoNulls(captured) && |captured| <= Capacity
        && (UniqueIds(old(captured)) ==> UniqueIds(captured))
        && rows == (if capturing then Filter(captured, filterText, methodFilter) else old(rows))
        && detail == (
          if capturing && StrictEq(selected, Prop(Prop(message, "request"), "id"))
             && FindRequest(captured, selected).Some? && activeTab.Some?
          then Some(ShowDetailContent(FindRequest(captured, selected).value, activeTab.value))
          else old(detail))
    {
      if !StrictEq(Prop(message, "action"), Str("newRequest")) {
        return;
      }
      var request := Prop(message, "request");
      if !Truthy(request) || !Truthy(Prop(request, "id")) {
        return;
      }
      if UniqueIds(captured) {
        MergeKeepsUniqueIds(captured, request.fields);
      }
      MergeRequest(request.fields);
      persisted := captured;

      if capturing {
        RenderRequests();
        if StrictEq(selected, Prop(request, "id")) {
          var found := FindRequest(captured, selected);
          if found.Some? && activeTab.Some? {
            detail := Some(ShowDetailContent(found.value, activeTab.value));
          }
        }
      }
    }
  }
}

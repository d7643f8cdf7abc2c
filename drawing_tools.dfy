/**
 * The tool palette: three buttons (draw, edit, erase). Choosing a tool
 * records it as the active tool and turns drawing on for 'draw' and off
 * for anything else. Nothing else acts on 'edit' or 'erase'.
 */
module DrawingTools {
  import opened AoiTypes
  import opened AoiStore

  /** The store's state after clicking the button for `tool`. */
  function ToolClicked(s: StoreState, tool: ActiveTool): (r: StoreState)
    ensures r.activeTool == tool
    ensures r.isDrawing <==> tool == Draw
    ensures r == s.(activeTool := tool, isDrawing := r.isDrawing)
  {
    s.(activeTool := tool, isDrawing := tool == Draw)
  }

  /** Clicking the same tool again changes nothing more. */
  lemma ToolClickIdempotent(s: StoreState, tool: ActiveTool)
    ensures ToolClicked(ToolClicked(s, tool), tool) == ToolClicked(s, tool)
  {
  }

  /** The outcome of a click depends only on the tool, not on the tool chosen before. */
  lemma ToolClickForgetsPrevious(s: StoreState, first: ActiveTool, second: ActiveTool)
    ensures ToolClicked(ToolClicked(s, first), second) == ToolClicked(s, second)
  {
  }

  /** 'edit' and 'erase' only switch drawing off: the list and the selection stay as they were. */
  lemma EditEraseOnlyStopDrawing(s: StoreState, tool: ActiveTool)
    requires tool == Edit || tool == Erase
    ensures !ToolClicked(s, tool).isDrawing
    ensures ToolClicked(s, tool).aois == s.aois
    ensures ToolClicked(s, tool).selectedAoiId == s.selectedAoiId
  {
  }

  /** `handleToolClick`: set the active tool, then switch drawing on or off. */
  method HandleToolClick(store: AOIStore, tool: ActiveTool)
    modifies store
    ensures store.State() == ToolClicked(old(store.State()), tool)
  {
    store.SetActiveTool(tool);
    if tool == Draw {
      store.SetDrawing(true);
    } else {
      store.SetDrawing(false);
    }
  }

  /** The palette's buttons, top to bottom. */
  const Buttons: seq<ActiveTool> := [Draw, Edit, Erase]

  /**
   * A button is highlighted when its tool is the active one. At most one
   * button is highlighted, and one is exactly when some tool has been chosen.
   */
  lemma AtMostOneButtonActive(activeTool: ActiveTool)
    ensures forall i, j :: 0 <= i < j < |Buttons| ==> !(activeTool == Buttons[i] && activeTool == Buttons[j])
    ensures activeTool != NoTool <==> exists i :: 0 <= i < |Buttons| && activeTool == Buttons[i]
  {
    if activeTool == Draw {
      assert activeTool == Buttons[0];
    } else if activeTool == Edit {
      assert activeTool == Buttons[1];
    } else if activeTool == Erase {
      assert activeTool == Buttons[2];
    }
  }
}

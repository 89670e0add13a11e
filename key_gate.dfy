/**
 * The credential gate (components/ApiKeySelector.tsx): a text field for the service key, its three
 * state cells (`apiKey`, `hasKey`, `isEditing`), and the two places a saved key lives in the
 * browser, the `GEMINI_API_KEY` entry of local storage and the `window.GEMINI_API_KEY` global
 * that the service client reads first.
 */
module KeyGate {
  import opened Wrappers
  import opened JsString
  import opened Gemini

  /** What the field shows, outside editing, once a key is known. */
  const Mask: string := "************************"

  /** The gate's cells and the two browser cells, as one value. */
  datatype Gate = Gate(
    apiKey: string, hasKey: bool, isEditing: bool, stored: Option<string>, global: Option<string>)

  /** A freshly mounted gate: empty field, no key, not editing, whatever the browser holds. */
  function Mounted(stored: Option<string>, global: Option<string>): Gate {
    Gate("", false, false, stored, global)
  }

  /** `checkKey`: a non-empty stored entry is loaded into the field and published as the global. */
  function Checked(g: Gate): Gate {
    if Truthy(g.stored) then g.(apiKey := g.stored.value, hasKey := true, global := g.stored) else g
  }

  /**
   * `handleSaveKey`: when the field's trimmed text is not empty, it is written to the stored
   * entry and the global, the key is marked present and editing ends; the field itself keeps the
   * untrimmed text. Otherwise nothing changes.
   */
  function Saved(g: Gate): Gate {
    var t := Trim(g.apiKey);
    if t != "" then g.(stored := Some(t), global := Some(t), hasKey := true, isEditing := false) else g
  }

  /** The field's `onChange`. */
  function Changed(g: Gate, v: string): Gate {
    g.(apiKey := v)
  }

  /** The field's `onFocus`. */
  function Focused(g: Gate): Gate {
    g.(isEditing := true)
  }

  /** The field's value: the raw text while editing, otherwise the mask once a key is known. */
  function Displayed(g: Gate): string {
    if g.isEditing then g.apiKey else if g.hasKey then Mask else ""
  }

  /** Saving text that trims to nothing changes nothing, in the gate or in the browser. */
  lemma SaveBlankIsNoOp(g: Gate)
    requires AllWhitespace(g.apiKey)
    ensures Saved(g) == g
  {
  }

  /**
   * Saving text that is not all whitespace stores its trimmed form in both browser cells, marks
   * the key present, ends editing, and leaves the field's text as typed.
   */
  lemma SaveStoresTrimmed(g: Gate)
    requires !AllWhitespace(g.apiKey)
    ensures var s := Saved(g);
      && s.stored == Some(Trim(g.apiKey)) && s.global == Some(Trim(g.apiKey))
      && s.hasKey && !s.isEditing && s.apiKey == g.apiKey
  {
  }

  /** Saving twice leaves the same gate and browser as saving once. */
  lemma SaveIdempotent(g: Gate)
    ensures Saved(Saved(g)) == Saved(g)
  {
  }

  /** With no stored entry, or an empty one, `checkKey` changes nothing. */
  lemma CheckWithoutEntryIsNoOp(g: Gate)
    requires !Truthy(g.stored)
    ensures Checked(g) == g
  {
  }

  /**
   * The save/load round trip: after text `v` that is not all whitespace is saved, a gate mounted
   * later (when the page has been reloaded and the global is gone) loads `trim(v)` back into its
   * field and the global, and the service client then resolves exactly that key.
   */
  lemma SaveThenCheck(g: Gate, global: Option<string>)
    requires !AllWhitespace(g.apiKey)
    ensures var loaded := Checked(Mounted(Saved(g).stored, global));
      && loaded.apiKey == Trim(g.apiKey) && loaded.hasKey
      && loaded.global == Some(Trim(g.apiKey))
      && ResolveApiKey(loaded.global, loaded.stored) == Success(Trim(g.apiKey))
  {
    var t := Trim(g.apiKey);
    assert t != "";
    assert Truthy(Saved(g).stored);
  }

  /** After a save the field shows the mask; a focus shows the raw text again. */
  lemma SaveMasksFocusReveals(g: Gate)
    requires !AllWhitespace(g.apiKey)
    ensures Displayed(Saved(g)) == Mask
    ensures Displayed(Focused(Saved(g))) == g.apiKey
  {
  }

  /** The user's actions on the gate, and the mount effect. */
  datatype Event = Check | Save | Change(text: string) | Focus

  function Step(g: Gate, e: Event): Gate {
    match e
    case Check => Checked(g)
    case Save => Saved(g)
    case Change(v) => Changed(g, v)
    case Focus => Focused(g)
  }

  /** The gate after the events `es`, in order. */
  function Run(g: Gate, es: seq<Event>): Gate
    decreases |es|
  {
    if es == [] then g else Run(Step(g, es[0]), es[1..])
  }

  /** `hasKey` is never cleared: once true, it stays true whatever happens next. */
  lemma {:induction false} HasKeyMonotone(g: Gate, es: seq<Event>)
    requires g.hasKey
    ensures Run(g, es).hasKey
    decreases |es|
  {
    if es != [] {
      HasKeyMonotone(Step(g, es[0]), es[1..]);
    }
  }

  /**
   * A gate that shows a key has it stored non-empty, and the global holds the same entry: the
   * key the gate reports is the one the service client will use.
   */
  predicate KeyPublished(g: Gate) {
    g.hasKey ==> Truthy(g.stored) && g.global == g.stored
  }

  /** A mounted gate publishes its key trivially, and every event keeps it published. */
  lemma {:induction false} RunKeepsKeyPublished(g: Gate, es: seq<Event>)
    requires KeyPublished(g)
    ensures KeyPublished(Run(g, es))
    decreases |es|
  {
    if es != [] {
      var next := Step(g, es[0]);
      if es[0] == Save {
        var t := Trim(g.apiKey);
        assert t != "" ==> Truthy(Some(t));
      }
      assert KeyPublished(next);
      RunKeepsKeyPublished(next, es[1..]);
    }
  }

  /** Whenever a gate that publishes its key shows one, the service client resolves that key. */
  lemma PublishedKeyIsResolved(g: Gate)
    requires KeyPublished(g) && g.hasKey
    ensures ResolveApiKey(g.global, g.stored) == Success(g.stored.value)
  {
  }

  /** The browser cells the gate writes: the stored entry and the window global. */
  class Browser {
    var stored: Option<string>
    var global: Option<string>

    constructor (stored: Option<string>, global: Option<string>)
      ensures this.stored == stored && this.global == global
    {
      this.stored := stored;
      this.global := global;
    }
  }

  /** The mounted component with its three state cells, over the browser it writes to. */
  class KeySelector {
    var apiKey: string
    var hasKey: bool
    var isEditing: bool
    const browser: Browser

    /** The component's cells and the browser's, as a `Gate`. */
    function Snapshot(): Gate
      reads this, browser
    {
      Gate(apiKey, hasKey, isEditing, browser.stored, browser.global)
    }

    /** Mounting: the initial cells; the mount effect is `CheckKey`. */
    constructor (browser: Browser)
      ensures this.browser == browser
      ensures Snapshot() == Mounted(browser.stored, browser.global)
    {
      this.browser := browser;
      apiKey := "";
      hasKey := false;
      isEditing := false;
    }

    method CheckKey()
      modifies this`apiKey, this`hasKey, browser`global
      ensures Snapshot() == Checked(old(Snapshot()))
      ensures unchanged(browser`stored) && isEditing == old(isEditing)
    {
      var stored := browser.stored;
      if Truthy(stored) {
        apiKey := stored.value;
        hasKey := true;
        browser.global := stored;
      }
    }

    /** Returns whether the key was saved (which of the two alerts is shown). */
    method HandleSaveKey() returns (saved: bool)
      modifies this`hasKey, this`isEditing, browser
      ensures Snapshot() == Saved(old(Snapshot()))
      ensures saved <==> !AllWhitespace(old(apiKey))
    {
      var t := Trim(apiKey);
      if t != "" {
        browser.stored := Some(t);
        browser.global := Some(t);
        hasKey := true;
        isEditing := false;
        saved := true;
      } else {
        saved := false;
      }
    }

    method OnChange(v: string)
      modifies this`apiKey
      ensures Snapshot() == Changed(old(Snapshot()), v)
    {
      apiKey := v;
    }

    method OnFocus()
      modifies this`isEditing
      ensures Snapshot() == Focused(old(Snapshot()))
    {
      isEditing := true;
    }
  }
}

/**
 * The content script's `GrammarChecker`: it marks and listens to text fields,
 * debounces input through ONE page-wide timer, decides whether a text is sent
 * for checking, and records the errors that come back. Browser events are
 * method calls; the timer is a slot naming the field whose check is pending.
 */
module GrammarMonitor {
  import opened Wrappers
  import opened Json
  import opened Normalizer
  import Orchestrator

  /** Texts shorter than this are never sent. */
  const MinCheckLength := 5

  /** What identifies a field: its tag name (upper case, as `tagName` reports
      it), its `type` attribute, and its `contentEditable` value. */
  datatype ElementKind = ElementKind(tagName: string, typeAttribute: Option<string>, contentEditable: string)

  /** The keywords the `type` attribute of an `<input>` may take. */
  const InputTypeKeywords := {
    "button", "checkbox", "color", "date", "datetime-local", "email", "file",
    "hidden", "image", "month", "number", "password", "radio", "range", "reset",
    "search", "submit", "tel", "text", "time", "url", "week"}

  /** The `type` property of an input: its attribute when that is one of the
      keywords, and `text` when it is missing, empty or unknown. */
  function InputType(k: ElementKind): (t: string)
    ensures t in InputTypeKeywords
    ensures k.typeAttribute.Some? && k.typeAttribute.value in InputTypeKeywords ==> t == k.typeAttribute.value
  {
    match k.typeAttribute
    case Some(t) => if t in InputTypeKeywords then t else "text"
    case None => "text"
  }

  /** `isTextInput(elem)`: stated on the attributes, an `<input>` is a text
      input when its `type` is `text`, `search`, missing or not a keyword. */
  function IsTextInput(k: ElementKind): (r: bool)
    ensures r <==>
      || k.tagName == "TEXTAREA"
      || k.contentEditable == "true"
      || (&& k.tagName == "INPUT"
          && (|| k.typeAttribute.None?
              || k.typeAttribute.value == "text"
              || k.typeAttribute.value == "search"
              || k.typeAttribute.value !in InputTypeKeywords))
  {
    || k.tagName == "TEXTAREA"
    || k.contentEditable == "true"
    || (k.tagName == "INPUT" && (InputType(k) == "text" || InputType(k) == "search"))
  }

  /** The selector `scanForInputs` queries:
      `input[type="text"], input[type="search"], textarea, [contenteditable="true"]`.
      It compares the attribute, not the property, and every element it
      matches is a text input. */
  function MatchesInputSelector(k: ElementKind): (r: bool)
    ensures r ==> IsTextInput(k)
  {
    || (k.tagName == "INPUT" && (k.typeAttribute == Some("text") || k.typeAttribute == Some("search")))
    || k.tagName == "TEXTAREA"
    || k.contentEditable == "true"
  }

  /** The text inputs the scan misses are exactly the `<input>` elements whose
      `type` attribute is missing or not a keyword; they are reached through focus. */
  lemma ScannedFieldsAreTextInputs(k: ElementKind)
    ensures IsTextInput(k) && !MatchesInputSelector(k) <==>
      && k.tagName == "INPUT" && k.contentEditable != "true"
      && (k.typeAttribute.None? || k.typeAttribute.value !in InputTypeKeywords)
  {
  }

  /** A page element as the checker sees it. */
  class Element {
    const kind: ElementKind
    var value: string
    var innerText: string
    var textContent: string
    /** `dataset.clarifyAttached`. */
    var clarifyAttached: bool
    /** How many `input` listeners the checker has added to this element. */
    var inputListeners: nat

    constructor (kind: ElementKind, value: string, innerText: string, textContent: string)
      ensures this.kind == kind && this.value == value && this.innerText == innerText && this.textContent == textContent
      ensures !clarifyAttached && inputListeners == 0
    {
      this.kind := kind;
      this.value := value;
      this.innerText := innerText;
      this.textContent := textContent;
      clarifyAttached := false;
      inputListeners := 0;
    }

    /** `elem.value || elem.innerText || elem.textContent || ''`: the first
        non-empty of the three, or empty when all are. */
    function Text(): (r: string)
      reads this
      ensures r == "" <==> value == "" && innerText == "" && textContent == ""
      ensures value != "" ==> r == value
      ensures value == "" && innerText != "" ==> r == innerText
      ensures value == "" && innerText == "" ==> r == textContent
    {
      if value != "" then value else if innerText != "" then innerText else textContent
    }
  }

  /** An on-page error marker; `remove()` takes it out of the document. */
  class Marker {
    var inDocument: bool

    constructor ()
      ensures inDocument
    {
      inDocument := true;
    }

    method Remove()
      modifies this
      ensures !inDocument
    {
      inDocument := false;
    }
  }

  class GrammarChecker {
    var activeElement: Element?
    var errorMarkers: seq<Marker>
    // The next three are module-level variables of the content script; the
    // page has exactly one checker, so they are kept here.
    var isGrammarEnabled: bool
    /** `debounceTimer`: the element whose check the one live timer will run, or null. */
    var debounceTimer: Element?
    var currentErrors: seq<GrammarError>

    constructor ()
      ensures activeElement == null && errorMarkers == []
      ensures isGrammarEnabled && debounceTimer == null && currentErrors == []
    {
      activeElement := null;
      errorMarkers := [];
      isGrammarEnabled := true;
      debounceTimer := null;
      currentErrors := [];
    }

    /** The stored setting: enabled unless it is literally `false`. */
    method LoadGrammarSetting(stored: Value)
      modifies this`isGrammarEnabled
      ensures isGrammarEnabled <==> stored != Bool(false)
    {
      isGrammarEnabled := stored != Bool(false);
    }

    /** The `toggleGrammar` message; it answers `{success: true}`. */
    method ToggleGrammar(enabled: bool) returns (success: bool)
      modifies this`isGrammarEnabled
      ensures success && isGrammarEnabled == enabled
    {
      isGrammarEnabled := enabled;
      success := true;
    }

    /** `attachToInput(elem)`: one more `input` listener, without marking. */
    method AttachToInput(elem: Element)
      modifies elem`inputListeners
      ensures elem.inputListeners == old(elem.inputListeners) + 1
    {
      elem.inputListeners := elem.inputListeners + 1;
    }

    /** `scanForInputs()` over the elements the selector query returned: each
        unmarked one is marked and attached once; marked ones are skipped. */
    method ScanForInputs(inputs: seq<Element>)
      // the elements the selector query returned
      requires forall e :: e in inputs ==> MatchesInputSelector(e.kind)
      modifies (set e | e in inputs)`clarifyAttached, (set e | e in inputs)`inputListeners
      ensures forall e :: e in inputs ==> e.clarifyAttached
      ensures forall e :: e in inputs ==>
        e.inputListeners == old(e.inputListeners) + (if old(e.clarifyAttached) then 0 else 1)
      ensures forall e :: e in inputs && e.inputListeners != old(e.inputListeners) ==> IsTextInput(e.kind)
    {
      var i := 0;
      while i < |inputs|
        invariant 0 <= i <= |inputs|
        invariant forall e :: e in inputs[..i] ==> e.clarifyAttached
        invariant forall e :: e in inputs[..i] ==>
          e.inputListeners == old(e.inputListeners) + (if old(e.clarifyAttached) then 0 else 1)
        invariant forall e :: e in inputs && e !in inputs[..i] ==>
          e.clarifyAttached == old(e.clarifyAttached) && e.inputListeners == old(e.inputListeners)
      {
        var input := inputs[i];
        if !input.clarifyAttached {
          input.clarifyAttached := true;
          AttachToInput(input);
        }
        assert inputs[..i + 1] == inputs[..i] + [input];
        i := i + 1;
      }
      assert inputs[..i] == inputs;
    }

    /** The `focusin` listener: a text input becomes the active element and
        gets one more listener, marked or not. */
    method OnFocusIn(elem: Element)
      modifies this`activeElement, elem`inputListeners
      ensures IsTextInput(elem.kind) ==> activeElement == elem && elem.inputListeners == old(elem.inputListeners) + 1
      ensures !IsTextInput(elem.kind) ==> activeElement == old(activeElement) && elem.inputListeners == old(elem.inputListeners)
    {
      if IsTextInput(elem.kind) {
        activeElement := elem;
        AttachToInput(elem);
      }
    }

    /** An `input` event on `elem`: each of its listeners clears the one
        page-wide timer and sets it again for `elem`, so a check pending for
        any other field is cancelled. Without listeners nothing happens. */
    method OnInput(elem: Element)
      modifies this`debounceTimer
      ensures debounceTimer == if elem.inputListeners > 0 then elem else old(debounceTimer)
    {
      if elem.inputListeners > 0 {
        // clearTimeout(debounceTimer), then debounceTimer = setTimeout(...); a
        // second listener on the same element repeats this to the same effect
        debounceTimer := elem;
      }
    }

    /** `checkText(elem)`: the text sent to the worker, if any. */
    method CheckText(elem: Element) returns (request: Option<string>)
      ensures request.Some? ==> isGrammarEnabled && request.value == elem.Text() && |request.value| >= MinCheckLength
      ensures isGrammarEnabled && |elem.Text()| >= MinCheckLength ==> request == Some(elem.Text())
    {
      if !isGrammarEnabled {
        return None;
      }
      var text := elem.Text();
      if text == "" || |text| < MinCheckLength {
        return None;
      }
      return Some(text);
    }

    /** The quiet period ends: the pending check, if any, runs. */
    method OnTimerFired() returns (request: Option<string>)
      modifies this`debounceTimer
      ensures debounceTimer == null
      ensures old(debounceTimer) == null ==> request.None?
      ensures request.Some? ==>
        && old(debounceTimer) != null && isGrammarEnabled
        && request.value == old(debounceTimer).Text() && |request.value| >= MinCheckLength
      ensures old(debounceTimer) != null && isGrammarEnabled && |old(debounceTimer).Text()| >= MinCheckLength ==>
        request == Some(old(debounceTimer).Text())
    {
      var elem := debounceTimer;
      debounceTimer := null;
      if elem == null {
        return None;
      }
      request := CheckText(elem);
    }

    /** `clearMarkers()`. */
    method ClearMarkers()
      modifies this`errorMarkers, set m | m in errorMarkers
      ensures errorMarkers == []
      ensures forall m :: m in old(errorMarkers) ==> !m.inDocument
    {
      var i := 0;
      while i < |errorMarkers|
        invariant 0 <= i <= |errorMarkers|
        invariant errorMarkers == old(errorMarkers)
        invariant forall k :: 0 <= k < i ==> !errorMarkers[k].inDocument
      {
        errorMarkers[i].Remove();
        i := i + 1;
      }
      errorMarkers := [];
    }

    /** `displayErrors(elem, errors)`: markers always go; an empty list leaves
        `currentErrors` as it was, any other list replaces it. */
    method DisplayErrors(elem: Element, errors: seq<GrammarError>)
      modifies this`errorMarkers, this`currentErrors, set m | m in errorMarkers
      ensures errorMarkers == []
      ensures forall m :: m in old(errorMarkers) ==> !m.inDocument
      ensures currentErrors == if errors == [] then old(currentErrors) else errors
    {
      ClearMarkers();
      if |errors| == 0 {
        return;
      }
      currentErrors := errors;
    }

    /** The `sendMessage` callback. Every response of `checkGrammar` carries an
        `errors` array, which is truthy even when empty, so it is always
        displayed; a missing response changes nothing. */
    method OnCheckResponse(elem: Element, response: Option<Orchestrator.CheckResponse>)
      modifies this`errorMarkers, this`currentErrors, set m | m in errorMarkers
      ensures response.None? ==> errorMarkers == old(errorMarkers) && currentErrors == old(currentErrors)
      ensures response.None? ==> forall m :: m in old(errorMarkers) ==> m.inDocument == old(m.inDocument)
      ensures response.Some? ==> errorMarkers == []
      ensures response.Some? ==> forall m :: m in old(errorMarkers) ==> !m.inDocument
      ensures response.Some? ==>
        currentErrors == if response.value.Errors() == [] then old(currentErrors) else response.value.Errors()
    {
      if response.Some? {
        DisplayErrors(elem, response.value.Errors());
      }
    }
  }
}

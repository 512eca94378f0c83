/**
  The `display-character` custom element (components/display-character.js): one cell of
  the masked word. It shows its character exactly when its `show` attribute is the
  string "true", and re-renders only when `show` changes.
 */
module DisplayCharacter {
  import opened JsValues

  /** The only attribute whose changes the element is told about. */
  const OBSERVED_ATTRIBUTES: seq<string> := ["show"]

  /** The text inside the rendered span: the template interpolates the character when
      `show` is exactly "true" and the empty string otherwise. */
  function RenderedText(character: JsValue, show: JsValue): (text: string)
    ensures text != "" ==> show == Str("true")
    ensures show == Str("true") ==> text == ToStr(character)
  {
    if show == Str("true") then ToStr(character) else ""
  }

  /** A non-empty character is on screen if and only if `show` is exactly "true";
      "false", any other string, `null` and `undefined` all render nothing. */
  lemma ShownIffTrue(character: string, show: JsValue)
    requires character != ""
    ensures RenderedText(Str(character), show) == character <==> show == Str("true")
    ensures show != Str("true") ==> RenderedText(Str(character), show) == ""
  {
  }

  class DisplayCharacterElement {
    /** The element's attributes as markup or `setAttribute` left them. */
    var attributes: map<string, string>
    /** `this.character` and `this.show`: `undefined` until first assigned. */
    var character: JsValue
    var show: JsValue
    /** `this.dataset.displayKey`. */
    var displayKey: JsValue
    /** The text of the span `render` last wrote, and how many times it has rendered. */
    var text: string
    var renders: nat

    constructor ()
      ensures attributes == map[] && character == Undefined && show == Undefined
      ensures displayKey == Undefined && text == "" && renders == 0
    {
      attributes := map[];
      character, show, displayKey := Undefined, Undefined, Undefined;
      text, renders := "", 0;
    }

    /** `render`: the output depends on `character` and `show` alone. */
    method Render()
      modifies this
      ensures text == RenderedText(character, show) && renders == old(renders) + 1
      ensures attributes == old(attributes) && character == old(character)
      ensures show == old(show) && displayKey == old(displayKey)
    {
      text := RenderedText(character, show);
      renders := renders + 1;
    }

    /** `connectedCallback`: read both attributes, publish the character in the dataset
        (a missing one is written as the string "null"), render. */
    method ConnectedCallback()
      modifies this
      ensures character == Attribute(attributes, "character")
      ensures show == Attribute(attributes, "show")
      // `dataset.displayKey` also adds a `data-display-key` attribute, which nothing here reads
      ensures displayKey == Str(ToStr(character))
      ensures text == RenderedText(character, show) && renders == old(renders) + 1
      ensures attributes == old(attributes)
    {
      character := Attribute(attributes, "character");
      show := Attribute(attributes, "show");
      displayKey := Str(ToStr(character));
      Render();
    }

    /** `attributeChangedCallback`: only a change of `show` to a different value is acted on. */
    method AttributeChangedCallback(name: string, oldValue: JsValue, newValue: JsValue)
      modifies this
      ensures if name == "show" && oldValue != newValue
              then show == newValue && text == RenderedText(character, newValue) &&
                   renders == old(renders) + 1
              else show == old(show) && text == old(text) && renders == old(renders)
      ensures attributes == old(attributes) && character == old(character)
      ensures displayKey == old(displayKey)
    {
      if name == "show" && oldValue != newValue {
        show := newValue;
        Render();
      }
    }

    /** `element.setAttribute(name, value)`: the platform stores the attribute and, for an
        observed attribute only, calls `attributeChangedCallback` with the old and new value. */
    method SetAttribute(name: string, value: string)
      modifies this
      ensures attributes == old(attributes)[name := value]
      ensures character == old(character) && displayKey == old(displayKey)
      ensures name !in OBSERVED_ATTRIBUTES ==>
                show == old(show) && text == old(text) && renders == old(renders)
      ensures name == "show" && old(Attribute(attributes, "show")) != Str(value) ==>
                show == Str(value) && text == RenderedText(character, show) &&
                renders == old(renders) + 1
      ensures name == "show" && old(Attribute(attributes, "show")) == Str(value) ==>
                show == old(show) && text == old(text) && renders == old(renders)
    {
      var oldValue := Attribute(attributes, name);
      attributes := attributes[name := value];
      if name in OBSERVED_ATTRIBUTES {
        AttributeChangedCallback(name, oldValue, Str(value));
      }
    }
  }
}

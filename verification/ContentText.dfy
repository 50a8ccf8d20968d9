/** The text of a conversation item, as the gateway extracts it from chat and Responses items. */
module ContentText {
  import opened Text
  import opened Json

  /** `contentPartText`. */
  function PartText(part: Json): string {
    FirstString(part, "text", "input_text")
  }

  function PartTexts(parts: seq<Json>): seq<string> {
    if parts == [] then [] else
    var text := match parts[0] case Str(s) => s case Obj(_) => PartText(parts[0]) case _ => "";
    (if Blank(text) then [] else [text]) + PartTexts(parts[1..])
  }

  /** `contentTextValue`. */
  function ValueText(value: Json): string {
    match value
    case Str(s) => s
    case Arr(items) => Join(PartTexts(items), "\n")
    case Obj(_) => PartText(value)
    case _ => ""
  }

  function NotEmpty(text: string): seq<string> {
    if text == "" then [] else [text]
  }

  /** `gatewayContextTextFromValue`. */
  function ItemText(item: Json): string {
    if !item.Obj? then "" else
    Trim(Join(NotEmpty(ValueText(Field(item, "content"))) + NotEmpty(StringValue(Field(item, "arguments")))
              + NotEmpty(StringValue(Field(item, "output"))), "\n"))
  }
}

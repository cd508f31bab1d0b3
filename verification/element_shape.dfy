/**
 * The common shape of the four element style configurations of
 * the container, text, image and icon configuration files: `{type, size, position, <part>, style, filter}`,
 * where the part is `layout` for a container, `text` for text and icons and
 * `image` for images.
 */
module ElementShape {
  import opened Json

  /** The object literal of an element style configuration. */
  function ShapeObject(tag: string, size: Value, position: Value, partKey: string, part: Value,
                       style: Value, filter: Value): (r: map<string, Value>)
    requires partKey !in {"type", "size", "position", "style", "filter"}
    ensures TagIs(r, "type", tag)
  {
    map["type" := Str(tag), "size" := size, "position" := position, partKey := part,
        "style" := style, "filter" := filter]
  }

  /** Every field sits under its own key. */
  lemma ShapeLookups(tag: string, size: Value, position: Value, partKey: string, part: Value,
                     style: Value, filter: Value)
    requires partKey !in {"type", "size", "position", "style", "filter"}
    ensures var o := ShapeObject(tag, size, position, partKey, part, style, filter);
      && TagIs(o, "type", tag)
      && "size" in o && o["size"] == size
      && "position" in o && o["position"] == position
      && partKey in o && o[partKey] == part
      && "style" in o && o["style"] == style
      && "filter" in o && o["filter"] == filter
  {
  }
}

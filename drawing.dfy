/** Surface-bound resources and the draw calls the layers issue. A draw call is
    not executed here: each becomes one element of the frame's command sequence. */
module Drawing {
  import opened Errors

  /** A GPU resource, named by what it was created from. */
  datatype Resource =
    | ImageStrip(file: string, count: int, orientation: int)
    | Bitmap(file: string)
    | Pen(width: real)

  /** In `DrawBitmap`, `bitmapOpacity` is `None` for the overload that takes no opacity argument. */
  datatype DrawCommand =
    | DrawLine(pen: Resource, x1: real, y1: real, x2: real, y2: real)
    | DrawImageStripUnit(strip: Resource, index: int, x: real, y: real, width: real, height: real, opacity: real)
    | DrawBitmap(image: Resource, x: real, y: real, width: real, height: real, bitmapOpacity: Option<real>)
}

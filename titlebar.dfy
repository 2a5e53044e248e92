/** The titlebar of a window (src/components/Titlebar.js): a stateless view
 *  whose only behaviour is which buttons it shows and which window command
 *  each click issues. */
module Titlebar {
  import opened JsValues

  /** The props a window passes to its titlebar. */
  datatype TitlebarProps = TitlebarProps(
    handleId: string,
    minHeight: Value,
    hasCloseButton: Value,
    hasMinimizeButton: Value,
    title: Value,
    isMinimized: Value,
    isCloseable: Value)

  /** The window commands a titlebar click can invoke: the `toggleIsMinimized`,
   *  `close` and `setIsHidden` props. */
  datatype Command = ToggleIsMinimized | Close | SetIsHidden(value: bool)

  datatype ButtonKind = MinimizeButton | CloseButton

  /** A rendered button: what it shows and what clicking it does. */
  datatype Button = Button(kind: ButtonKind, text: string, onClick: Command)

  /** The glyph on the minimize button: a down chevron while minimized,
   *  an up chevron otherwise. */
  function MinimizeGlyph(isMinimized: Value): (g: string)
    ensures |g| == 1
    ensures (g == "\U{2228}") == Truthy(isMinimized)
    ensures !Truthy(isMinimized) ==> g == "\U{2227}"
  {
    if Truthy(isMinimized) then "\U{2228}" else "\U{2227}"
  }

  /** The close button's click handler: a closeable window is closed,
   *  any other one is only hidden. */
  function CloseClick(p: TitlebarProps): (c: Command)
    ensures c == Close || c == SetIsHidden(true)
    ensures c == Close <==> Truthy(p.isCloseable)
  {
    if Truthy(p.isCloseable) then Close else SetIsHidden(true)
  }

  /** The buttons on the right of the titlebar, in rendering order. */
  function Buttons(p: TitlebarProps): (bs: seq<Button>)
    ensures |bs| <= 2
    ensures (exists i :: 0 <= i < |bs| && bs[i].kind == MinimizeButton) <==> Truthy(p.hasMinimizeButton)
    ensures (exists i :: 0 <= i < |bs| && bs[i].kind == CloseButton) <==> Truthy(p.hasCloseButton)
    ensures forall i :: 0 <= i < |bs| && bs[i].kind == MinimizeButton ==>
              bs[i].text == MinimizeGlyph(p.isMinimized) && bs[i].onClick == ToggleIsMinimized
    ensures forall i :: 0 <= i < |bs| && bs[i].kind == CloseButton ==>
              bs[i].text == "X" && bs[i].onClick == CloseClick(p)
    ensures forall i, j :: 0 <= i < j < |bs| ==> bs[i].kind == MinimizeButton && bs[j].kind == CloseButton
  {
    var minimize := if Truthy(p.hasMinimizeButton)
      then [Button(MinimizeButton, MinimizeGlyph(p.isMinimized), ToggleIsMinimized)] else [];
    var close := if Truthy(p.hasCloseButton) then [Button(CloseButton, "X", CloseClick(p))] else [];
    var bs := minimize + close;
    assert Truthy(p.hasMinimizeButton) ==> bs[0].kind == MinimizeButton;
    assert Truthy(p.hasCloseButton) ==> bs[|bs| - 1].kind == CloseButton;
    bs
  }

  /** The class of the title element, which the window's drag handle selects. */
  function TitleClassName(p: TitlebarProps): (c: string)
    ensures c == p.handleId
  {
    p.handleId
  }
}

// The firmware's menu globals and routines as an object: `current_index`
// and `in_menu` become fields, the LVGL screen becomes the list of label
// texts on it, and every display side effect is appended to a trace. Each
// routine is proved to produce exactly the state MenuSpec computes.
module MenuController {
  import opened MenuSpec

  class Controller {
    /** `current_index`: the selected menu entry. */
    var currentIndex: int
    /** `in_menu`: true while the menu is shown. */
    var inMenu: bool
    /** Texts of the labels on the active screen, top to bottom. */
    var screen: seq<string>
    /** The display side effects so far. */
    var trace: seq<Effect>

    /** The controller's state as a value. */
    function Snapshot(): State
      reads this
    {
      State(currentIndex, inMenu, screen, trace)
    }

    /** The selection names an entry and the screen matches the mode. */
    predicate Valid()
      reads this
    {
      Inv(Snapshot()) && Displayed(Snapshot())
    }

    /** Start-up in `app_main`: the globals' initial values, then the
      * menu drawn once. */
    constructor ()
      ensures Valid() && Snapshot() == Initial
    {
      currentIndex := 0;
      inMenu := true;
      screen := [];
      trace := [];
      new;
      DrawMenu();
      RenderMenuShape(0);
    }

    /** `draw_menu`: clear the screen, then add one label per table entry
      * with the marker on the selected one. */
    method DrawMenu()
      modifies this`screen, this`trace
      ensures Snapshot() == Redrawn(old(Snapshot()))
    {
      screen := [];
      for i := 0 to MenuCount
        invariant screen == MenuLines(currentIndex, i)
        invariant trace == old(trace)
      {
        var line := Snprintf([Marker(i, currentIndex), ' '] + MainMenu[i].name, LineBufferSize);
        screen := screen + [line];
      }
      trace := trace + [MenuDrawn];
    }

    /** `page_qr_generate`: one centred label on the screen. */
    method PageQrGenerate()
      modifies this`screen, this`trace
      ensures Snapshot() == PageOpened(old(Snapshot()), QrGenerate)
    {
      screen := screen + ["qr generate"];
      trace := trace + [PageShown(QrGenerate)];
    }

    /** `page_qr_scan`: one centred label on the screen. */
    method PageQrScan()
      modifies this`screen, this`trace
      ensures Snapshot() == PageOpened(old(Snapshot()), QrScan)
    {
      screen := screen + ["qr scan"];
      trace := trace + [PageShown(QrScan)];
    }

    /** Calls the page function an entry names. */
    method RunPage(p: Page)
      modifies this`screen, this`trace
      ensures Snapshot() == PageOpened(old(Snapshot()), p)
    {
      match p
      case QrGenerate => PageQrGenerate();
      case QrScan => PageQrScan();
    }

    /** `handle_button`: dispatch a logical button id. */
    method HandleButton(button: int)
      requires Valid()
      modifies this
      ensures Valid()
      ensures Snapshot() == Step(old(Snapshot()), button)
    {
      ghost var s := Snapshot();
      if inMenu {
        if button == UpId {
          currentIndex := (currentIndex - 1 + MenuCount) % MenuCount;
          DrawMenu();
        } else if button == DownId {
          currentIndex := (currentIndex + 1) % MenuCount;
          DrawMenu();
        } else if button == ActivateId {
          inMenu := false;
          screen := [];
          RunPage(MainMenu[currentIndex].page);
        }
      } else {
        if button == BackId {
          inMenu := true;
          DrawMenu();
        }
      }
      StepDisplayed(s, button);
    }

    /** `button_cb_menu`, `button_cb_play`, `button_cb_up` and
      * `button_cb_down`: a click passes the button's logical id on. */
    method OnClick(b: Button)
      requires Valid()
      modifies this
      ensures Valid()
      ensures Snapshot() == Step(old(Snapshot()), ButtonId(b))
    {
      HandleButton(ButtonId(b));
    }
  }
}

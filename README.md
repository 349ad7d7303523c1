# ssi_esp menu navigation, modelled in Dafny

The ssi_esp firmware shows a one-level menu on the board's display. The
menu table `main_menu` has two entries, "QR Generate" and "QR Scan". Each
entry names a page function. Two globals hold the state: `current_index`,
the selected entry, and `in_menu`, true while the menu is shown. Four button
callbacks pass a logical id to `handle_button`: 1 activates the selected
entry, 2 goes back to the menu, 3 moves the selection up and 4 moves it down.
`draw_menu` clears the screen and writes one line per entry, "> name" on the
selected entry and "  name" on the others. Each page function adds a single
label ("qr generate" or "qr scan") to the screen.

The project has two modules:

- `MenuSpec` (menu_spec.dfy) is the pure model. It holds the table, the
  formatting of menu lines (including the 32-byte `snprintf` buffer), the
  wrap-around arithmetic (proved for every table size, since `MENU_COUNT` is
  computed from the table) and the transition `Step` for one button id. It also
  holds `Run` for a sequence of ids, and the lemmas about them.
- `MenuController` (menu_controller.dfy) holds a class `Controller`. Its
  fields are the two globals, the screen as a list of label texts, and a trace
  of display side effects: the menu drawn, or a page shown. Each method is
  proved to leave exactly the state that `MenuSpec` computes from the old
  state. `DrawMenu` builds the screen in a loop, with an invariant that ties
  the lines built so far to `MenuLines`.

## Model

| member | source | states |
|---|---|---|
| MenuSpec.PageLabelsDistinct | main/ssi_esp.c:172-183 | the two pages write different labels, so the screen tells which page ran |
| MenuSpec.ButtonIdInjective | main/ssi_esp.c:120-142 | two callbacks pass the same id only if they are the same button |
| MenuSpec.Snprintf | main/ssi_esp.c:87-88 | the result is a prefix of the text of length `min(len, size - 1)`: the whole text when it fits, otherwise exactly its first `size - 1` bytes |
| MenuSpec.MenuLine | main/ssi_esp.c:85-90 | line i is the marker, a space and the name of entry i; the buffer never cuts it |
| MenuSpec.MenuLines | main/ssi_esp.c:85-91 | the first n lines are exactly lines 0..n-1 in table order |
| MenuSpec.RenderMenuShape | main/ssi_esp.c:80-94 | the menu screen has MENU_COUNT lines in table order, "> " on the selected entry and "  " elsewhere, and only the selected line is marked |
| MenuSpec.SizeTPrevAgrees | main/ssi_esp.c:101 | the 32-bit size_t evaluation of the decrement equals the mathematical wrap-around for every index in range |
| MenuSpec.WrapAround | main/ssi_esp.c:101-104 | for every table size n >= 1, up and down stay in range; up wraps 0 to n-1 and down wraps n-1 to 0 |
| MenuSpec.PrevNextInverse | main/ssi_esp.c:101-104 | for every table size n >= 1, down undoes up and up undoes down |
| MenuSpec.TwoEntriesSelfInverse | main/ssi_esp.c:69-74 | with the firmware's two entries, two downs or two ups return to the start |
| MenuSpec.WalkCount | main/ssi_esp.c:100-105 | for every table size n >= 1, a run of ups and downs ends at (start + downs - ups) mod n |
| MenuSpec.Step | main/ssi_esp.c:97-117 | every transition keeps the selected index in [0, MENU_COUNT) |
| MenuSpec.Run | main/ssi_esp.c:97-117 | any sequence of button ids keeps the selected index in [0, MENU_COUNT) |
| MenuSpec.StepUp | main/ssi_esp.c:100-102 | in menu mode, up moves the selection up with wrap-around, stays in menu mode and draws the menu once |
| MenuSpec.StepDown | main/ssi_esp.c:103-105 | in menu mode, down moves the selection down with wrap-around, stays in menu mode and draws the menu once |
| MenuSpec.UpDownRoundTrip | main/ssi_esp.c:100-105 | up then down and down then up restore the index and the menu screen; two downs restore the index |
| MenuSpec.StepActivate | main/ssi_esp.c:106-110 | in menu mode, activate leaves menu mode, keeps the index, and runs exactly the selected entry's page on a cleared screen ("qr generate" for 0, "qr scan" for 1) |
| MenuSpec.StepBack | main/ssi_esp.c:111-115 | out of menu mode, back returns to menu mode, keeps the index and draws the menu exactly once |
| MenuSpec.IgnoredIffUnchanged | main/ssi_esp.c:99-116 | an id leaves state, screen and trace unchanged exactly when the mode ignores it (in menu: not 1, 3 or 4; out of menu: not 2) |
| MenuSpec.StepDisplayed | main/ssi_esp.c:97-117 | each transition keeps the screen in step with the mode: the menu for the index, or the selected page's label |
| MenuSpec.RunDisplayed | main/ssi_esp.c:97-117 | any sequence of ids keeps the index in range and the screen in step with the mode |
| MenuSpec.ReachableDisplayed | main/ssi_esp.c:77-78 | every state reachable from start-up has an index in range and a screen that matches its mode |
| MenuSpec.NavigationCount | main/ssi_esp.c:100-105 | in menu mode, a run of ups and downs stays in menu mode, moves the selection as `Walk` does, and ends at (start + downs - ups) mod MENU_COUNT |
| MenuSpec.OutOfMenuOnlyBack | main/ssi_esp.c:111-116 | out of menu mode, a run without the back id changes nothing |
| MenuSpec.Scenario | main/ssi_esp.c:69-110 | from start-up, down, down, up give indices 1, 0, 1, and activate then shows the "QR Scan" entry's page |
| MenuController.Controller.constructor | main/ssi_esp.c:77-78 | the globals start at index 0 in menu mode, and the menu is drawn once as in `app_main` |
| MenuController.Controller.DrawMenu | main/ssi_esp.c:80-94 | the screen is cleared and then holds exactly the rendered menu for the current index; nothing else changes but one trace entry |
| MenuController.Controller.PageQrGenerate | main/ssi_esp.c:167-176 | adds the label "qr generate" to the screen |
| MenuController.Controller.PageQrScan | main/ssi_esp.c:178-187 | adds the label "qr scan" to the screen |
| MenuController.Controller.RunPage | main/ssi_esp.c:109 | calls exactly the page function the entry names |
| MenuController.Controller.HandleButton | main/ssi_esp.c:97-117 | the new state is `Step` of the old state, and the controller stays valid |
| MenuController.Controller.OnClick | main/ssi_esp.c:120-142 | a click acts as `handle_button` with that button's id |

## Left out

- LVGL object creation, alignment and centring (`lv_label_create`, `lv_obj_align`, `lv_obj_center`): the screen is modelled as the list of label texts only, not pixel positions.
- `bsp_display_lock`/`bsp_display_unlock` and the fact that callbacks run on the button driver's task: this is mutual exclusion between tasks, and the model is sequential.
- The ADC threshold and GPIO button configuration table (main/ssi_esp.c:20-54): it is configuration data read by the button driver. The fifth entry (the boot button) gets no callback.
- Board bring-up and callback registration in `app_main` (main/ssi_esp.c:146-163): only its effect on the menu state (the initial draw) is modelled.
- Logging (`ESP_LOGI`): it has no effect on state.
- The camera capture and display streaming loop: it is not in main/ssi_esp.c, so there is nothing to model.
- MenuSpec.Step: uses the mathematical wrap-around `(i - 1 + MENU_COUNT) % MENU_COUNT` rather than C's 32-bit size_t arithmetic (the ESP32 targets have a 32-bit size_t). `SizeTPrevAgrees` shows the two agree for every index in range, and the index is always in range.

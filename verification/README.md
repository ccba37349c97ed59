# HButton: a verified model of one holographic-menu button

A holographic menu is made of buttons. Each button is a hologram placed relative to the menu's anchor point and facing direction. This project models the button definition `HButton` of HolographicMenus (`src/main/java/de/erethon/holographicmenus/menu/HButton.java`):

- its stored properties and their setters;
- the type default applied when a button is loaded from a menu script;
- the lazily cached count of command variables. These are the markers `%v1%`, `%v2%`, … that the player fills in through chat;
- the 1-based prompt lookup for those variables;
- the audience filter and opener of the `open` action;
- the placement geometry of the hologram.

Modules:

- `Wrappers`: `Option` (Java's `null`) and `Result` (a thrown exception).
- `Text`: the decimal rendering of a non-negative `int` (as Java's string concatenation gives it) and its inverse, `String.contains`, and the marker `"%v" + k + "%"`. It also proves that two different markers never start at the same position of a string.
- `CommandVariables`: `IsVariableCount(command, n)`, the meaning of the count. Markers `1..n` occur and marker `n+1` does not. Lemmas cover the count's uniqueness, its maximality, the bound `n <= |command|`, the gap rule and `hasCommandVariables`. This module also holds the 1-based prompt lookup.
- `Audiences`: the three-way audience `Unrestricted | Explicit(viewers)`. `Unrestricted` stands for Java's `null` collection. The module also holds the order-preserving permission filter and the opener.
- `Geometry`: `Vec3` over exact reals, Bukkit's cross product, and `Place`, which is `getLocation` in closed form.
- `Buttons`: the enum `ButtonType` with its by-name lookup and default, and the class `HButton`. Its mutable fields are the source's fields. `GetCommandVariables` updates the cache field step by step in a `while true` loop, as the source does. `Open` builds the permitted viewers in a loop.

Three behaviours of the source are worth stating on their own:

- **Placement.** Bukkit's `getCrossProduct` gives `d × (0,1,0) = (-d.z, 0, d.x)`. So anchor `(0,0,0)`, direction `(1,0,0)`, x = 2 and y = 3 place the button at `(1, 3, 2)` (`Geometry.PlaceExample`).
- **Stale count.** `setCommand` (HButton.java:138-140) keeps the cached count. A count taken before the change is still returned afterwards (`Buttons.StaleCountAfterSetCommand`). `hasCommandVariables` looks at the current command, so after such a change the two can disagree. Counting `"%v1%"` gives 1; after the command becomes `"x"`, `hasCommandVariables` is false while the count is still 1 (`Buttons.StaleCountDisagreesWithHasVariables`).
- **No round trip.** `serialize` writes `varMsgs` (line 290) and the loader reads `variableMessages` (line 83). `serialize` also writes the type as an enum object. Loading what was saved therefore does not give the same button, and serialization is not modelled.

The placeholder parser (`Placeholder.parse`) and the permission backend (`HPermission.hasPermission`) are parameters of the model, as arbitrary functions. A player is a type parameter `P`.

`GetX`, `GetVariableMessages` and `HasPermission` read a field and have no contract of their own. `GetVariableMessage` and `GetLocation` delegate to `CommandVariables.VariableMessage` and `Geometry.Place`, whose rows give their contracts. The script's `label` key is the field `labelText`, because `label` is a Dafny keyword.

## Model

| member | source | states |
|---|---|---|
| `Text.DecimalRoundTrip` | src/main/java/de/erethon/holographicmenus/menu/HButton.java:163 | the decimal text of the counter, as concatenated into a marker, reads back as the same number |
| `Text.MarkersStartApart` | src/main/java/de/erethon/holographicmenus/menu/HButton.java:163-164 | markers `%vi%` and `%vj%` found at the same position of a command have i = j |
| `CommandVariables.MarkerCountBound` | src/main/java/de/erethon/holographicmenus/menu/HButton.java:161-170 | if markers 1..n all occur in a command then n is at most the command's length, which bounds the scan loop |
| `CommandVariables.CountIsLargest` | src/main/java/de/erethon/holographicmenus/menu/HButton.java:161-170 | for a count n, markers 1..m all occur exactly when m <= n: the count is the largest contiguous run from 1 |
| `CommandVariables.CountUnique` | src/main/java/de/erethon/holographicmenus/menu/HButton.java:161-170 | a command has only one variable count |
| `CommandVariables.CountStopsAtGap` | src/main/java/de/erethon/holographicmenus/menu/HButton.java:164-168 | a missing marker k bounds the count below k, whatever markers come after the gap |
| `CommandVariables.GapExample` | src/main/java/de/erethon/holographicmenus/menu/HButton.java:161-170 | `"%v1% %v3%"` has exactly one command variable |
| `CommandVariables.HasVariablesIffCount` | src/main/java/de/erethon/holographicmenus/menu/HButton.java:146-148 | `hasCommandVariables` of a non-null command holds exactly when its count is at least 1 |
| `CommandVariables.VariableMessage` | src/main/java/de/erethon/holographicmenus/menu/HButton.java:187-189 | prompt i is `varMsgs[i-1]` for 1 <= i <= the list's length and an index-out-of-bounds error at index i-1 otherwise |
| `Text.DecimalString` | src/main/java/de/erethon/holographicmenus/menu/HButton.java:163 | the counter's decimal text is a non-empty run of digits with no leading zero except for 0 |
| `Text.Contains` | src/main/java/de/erethon/holographicmenus/menu/HButton.java:164 | `String.contains`: some position of the command starts with the marker; a marker longer than the command is never contained |
| `Text.Marker` | src/main/java/de/erethon/holographicmenus/menu/HButton.java:163 | the marker `"%v" + k + "%"` starts with `%v`, ends with `%` and is at least four characters long |
| `CommandVariables.IsVariableCount` | src/main/java/de/erethon/holographicmenus/menu/HButton.java:161-170 | what the count means: markers 1..n occur and marker n+1 does not; such an n is at most the command's length, and markers 1..n+1 do not all occur |
| `CommandVariables.HasVariables` | src/main/java/de/erethon/holographicmenus/menu/HButton.java:146-148 | `hasCommandVariables` of a possibly null command: the command is non-null and marker 1 occurs in it, so it has at least four characters |
| `Buttons.HButton.HasCommandVariables` | src/main/java/de/erethon/holographicmenus/menu/HButton.java:146-148 | the button's current command is non-null and holds marker 1; the cached count is not consulted |
| `CommandVariables.SingleMarkerExample` | src/main/java/de/erethon/holographicmenus/menu/HButton.java:161-170 | `"%v1%"` has exactly one command variable |
| `Buttons.StaleCountDisagreesWithHasVariables` | src/main/java/de/erethon/holographicmenus/menu/HButton.java:138-160 | after counting `"%v1%"` and changing the command to `"x"`, the count is still 1 while `hasCommandVariables` is false |
| `Buttons.HButton.GetLabel` | src/main/java/de/erethon/holographicmenus/menu/HButton.java:98-100 | the label is what the placeholder parser makes of the stored label template for the given player (null as None) |
| `Audiences.Permitted` | src/main/java/de/erethon/holographicmenus/menu/HButton.java:316-321 | the filtering loop's result: no longer than the candidates, and every viewer in it holds the permission |
| `Buttons.HButton.GetY` | src/main/java/de/erethon/holographicmenus/menu/HButton.java:267-269 | as written, `getY` returns the horizontal offset x |
| `Buttons.HButton.GetYIntended` | src/main/java/de/erethon/holographicmenus/menu/HButton.java:267-269 | the corrected getter returns the vertical offset y |
| `Buttons.HButton.GetCommandVariables` | src/main/java/de/erethon/holographicmenus/menu/HButton.java:154-171 | a null command gives 0 with the cache untouched; a cached count is returned unchanged; otherwise the result is the count of the command (markers 1..n present, n+1 absent, n <= length) and is stored in the cache |
| `Buttons.HButton.SetCommand` | src/main/java/de/erethon/holographicmenus/menu/HButton.java:138-140 | replaces the command and leaves the cached count as it was |
| `Buttons.StaleCountAfterSetCommand` | src/main/java/de/erethon/holographicmenus/menu/HButton.java:154-160 | counting, changing the command and counting again returns the first command's count twice |
| `Buttons.TypeByName` | src/main/java/de/erethon/holographicmenus/menu/HButton.java:78 | a found type has exactly the given constant name; no type is found when no constant has that name |
| `Buttons.TypeOrDefault` | src/main/java/de/erethon/holographicmenus/menu/HButton.java:78-81 | a known type name gives that type; a missing or unknown name gives BUTTON |
| `Buttons.TypeNameRoundTrip` | src/main/java/de/erethon/holographicmenus/menu/HButton.java:44-51 | every type read back from its constant name is itself |
| `Buttons.HButton.constructor` | src/main/java/de/erethon/holographicmenus/menu/HButton.java:64-74 | every field takes its argument and the count cache starts uncounted (-1) |
| `Buttons.HButton.FromSection` | src/main/java/de/erethon/holographicmenus/menu/HButton.java:76-89 | missing keys default to "", BUTTON, null, an empty prompt list, false and 0; the variable prompts come from `variableMessages`; the cache starts uncounted |
| `Buttons.HButton.SetLabel` | src/main/java/de/erethon/holographicmenus/menu/HButton.java:106-108 | sets the label and nothing else |
| `Buttons.HButton.SetType` | src/main/java/de/erethon/holographicmenus/menu/HButton.java:122-124 | sets the type and nothing else |
| `Buttons.HButton.SetSound` | src/main/java/de/erethon/holographicmenus/menu/HButton.java:203-205 | sets the sound and nothing else |
| `Buttons.HButton.SetPermission` | src/main/java/de/erethon/holographicmenus/menu/HButton.java:227-229 | sets the permission and nothing else |
| `Buttons.HButton.SetClosingMenu` | src/main/java/de/erethon/holographicmenus/menu/HButton.java:243-245 | sets the close-menu flag and nothing else |
| `Buttons.HButton.SetX` | src/main/java/de/erethon/holographicmenus/menu/HButton.java:259-261 | sets x and nothing else |
| `Buttons.HButton.SetY` | src/main/java/de/erethon/holographicmenus/menu/HButton.java:275-277 | sets y and nothing else |
| `Audiences.Resolve` | src/main/java/de/erethon/holographicmenus/menu/HButton.java:313-325 | null or no viewers give an unrestricted audience whatever the permission; otherwise all viewers without a permission, the permitted viewers with one |
| `Audiences.Opener` | src/main/java/de/erethon/holographicmenus/menu/HButton.java:326 | the opener is the first viewer, and is null exactly when the viewers are null or empty |
| `Audiences.PermittedCounts` | src/main/java/de/erethon/holographicmenus/menu/HButton.java:316-321 | each viewer holding the permission is kept as many times as it occurs; every other viewer is dropped |
| `Audiences.PermittedMembers` | src/main/java/de/erethon/holographicmenus/menu/HButton.java:316-321 | a viewer is in the filtered list exactly when it is a candidate and holds the permission |
| `Audiences.PermittedIsSubsequence` | src/main/java/de/erethon/holographicmenus/menu/HButton.java:316-321 | the filtered list keeps the candidates' relative order |
| `Audiences.PermittedAll` | src/main/java/de/erethon/holographicmenus/menu/HButton.java:316-321 | when every candidate holds the permission the filtered list is the candidate list |
| `Audiences.NoViewersUnrestricted` | src/main/java/de/erethon/holographicmenus/menu/HButton.java:313-326 | without candidates the audience is unrestricted and there is no opener, for any permission |
| `Audiences.OpenerInAudience` | src/main/java/de/erethon/holographicmenus/menu/HButton.java:313-326 | the opener belongs to the explicit audience unless the permission check rejects them |
| `Buttons.HButton.Open` | src/main/java/de/erethon/holographicmenus/menu/HButton.java:312-330 | the hologram request carries the resolved audience (built by the filtering loop), the label parsed for the opener, and the placement of `getLocation` |
| `Geometry.Cross` | src/main/java/de/erethon/holographicmenus/menu/HButton.java:333 | the cross product is perpendicular to both of its factors |
| `Geometry.Place` | src/main/java/de/erethon/holographicmenus/menu/HButton.java:332-336 | the location is (a.x + d.x - x·d.z, a.y + y, a.z + d.z + x·d.x) |
| `Geometry.CrossUp` | src/main/java/de/erethon/holographicmenus/menu/HButton.java:333 | d × (0,1,0) = (-d.z, 0, d.x) |
| `Geometry.PlaceIgnoresDirectionY` | src/main/java/de/erethon/holographicmenus/menu/HButton.java:334 | the facing direction's vertical component does not affect the location |
| `Geometry.PlaceSidewaysStep` | src/main/java/de/erethon/holographicmenus/menu/HButton.java:333-335 | the location's displacement beyond the vertical offset and the forward step is horizontal, perpendicular to the facing direction and x times the flattened direction's length |
| `Geometry.PlaceFollowsAnchor` | src/main/java/de/erethon/holographicmenus/menu/HButton.java:335 | moving the anchor moves the location by the same vector |
| `Geometry.PlaceVerticalFacing` | src/main/java/de/erethon/holographicmenus/menu/HButton.java:333-335 | a direction with no horizontal part places the button straight above the anchor by y, ignoring x |
| `Geometry.PlaceExample` | src/main/java/de/erethon/holographicmenus/menu/HButton.java:332-336 | anchor (0,0,0), direction (1,0,0), x = 2, y = 3 give (1,3,2) |
| `Buttons.GetYAfterSetY` | src/main/java/de/erethon/holographicmenus/menu/HButton.java:267-269 | as written, `getY` after `setY(y)` reports x |
| `Buttons.GetYIntendedAfterSetY` | src/main/java/de/erethon/holographicmenus/menu/HButton.java:267-269 | the corrected getter after `setY(y)` reports y |

## Left out

- Hologram creation (`provider.createHologram`, `hologram.setButton`, lines 327-329) belongs to the rendering plugin. `Open` returns the request it would pass: location, label text and audience.
- `Placeholder.parse` and `HPermission.hasPermission` are external. They are parameters: arbitrary functions of player and text, and of player and permission name.
- `serialize` (lines 284-298) and the YAML/`ConfigurationSection` reading are library plumbing. `ButtonSection` stands for a section whose entries are already read with their types. The library's coercion of wrongly typed values is not modelled.
- `EnumUtil.getEnum` is not part of this model. It is taken to return the constant whose name matches exactly (`Enum.valueOf`), or null otherwise.
- Java `null` for `label`, `type` and `varMsgs` is not modelled. The nine-argument constructor and the setters accept it, and it would make `getLabel`, `getVariableMessage` or the type checks throw. The model keeps these fields non-null. `command`, `sound`, `permission` and the viewer array are `Option`s.
- Coordinates and offsets are exact reals. IEEE double rounding, NaN and infinities are not modelled. Bukkit's mutable `Location` and `Vector` are values, so the clones in `getLocation` are implicit, and anchor and direction cannot be modified.
- `Buttons.HButton.GetCommandVariables` does not model 32-bit `int` overflow of the counter. It cannot occur, because the count is at most the command's length.
- The effects of the sound, the close-menu flag and the paging types belong to other classes. Here they are stored fields.
- Concurrent calls are not modelled. While `getCommandVariables` scans, the cache field holds intermediate values that another thread could observe.
- `getType`, `getCommand`, `getSound`, `getPermission` and `isClosingMenu` have no member of their own; they are direct reads of the fields `kind`, `command`, `sound`, `permission` and `closeMenu`. `getX`, `getVariableMessages` and `hasPermission` are members without contracts.
- The aliased prompt list is not modelled. The nine-argument constructor keeps the caller's `List` by reference (line 68), and `getVariableMessages` hands out the internal list (lines 177-179). Changes made through either reference change what `getVariableMessage` returns. The model's `varMsgs` is a value, so it changes only through the button.
- A Bukkit `Location` also carries a world, a yaw and a pitch. `getLocation` keeps the anchor's values, because it works on `anchor.clone()` (line 335). `Vec3` holds only the three coordinates, so the model does not show that these are carried over.

## Findings

| source | as written | input that shows it | evidently intended | confidence | as-written member | corrected member |
|---|---|---|---|---|---|---|
| src/main/java/de/erethon/holographicmenus/menu/HButton.java:267-269 | `getY` returns the field `x` (its doc comment also says "X") | a button with x = 0 after `setY(3)`: `getY()` gives 0 | return the field `y`, which `setY` sets and `getLocation` uses | high, not executed | `Buttons.GetYAfterSetY` | `Buttons.GetYIntendedAfterSetY` |

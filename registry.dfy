/**
 * The category registry: the fixed table from a menu value to the label a
 * ticket carries, and the menu built from it (one option per entry, in the
 * table's order).
 */
module Registry {

  /** The label of a ticket whose category cannot be told. */
  const FALLBACK: string := "Ticket"

  /** The menu values, in the order the table lists them. */
  const CATEGORY_KEYS: seq<string> :=
    ["soporte_tecnico", "compras", "sugerencias", "reportar_usuario", "otro_no_mencionado"]

  /** The labels, in the same order. */
  const CATEGORY_LABELS: seq<string> :=
    ["Soporte Técnico", "Compras", "Sugerencias", "Reportar Usuario", "Otro No Mencionado"]

  const CATEGORY_NAMES: map<string, string> := map[
    "soporte_tecnico" := "Soporte Técnico",
    "compras" := "Compras",
    "sugerencias" := "Sugerencias",
    "reportar_usuario" := "Reportar Usuario",
    "otro_no_mencionado" := "Otro No Mencionado"
  ]

  /** `CATEGORY_NAMES[key] || 'Ticket'`. */
  function CategoryName(key: string): (name: string)
    ensures name == FALLBACK || name in CATEGORY_LABELS
  {
    if key in CATEGORY_NAMES then CATEGORY_NAMES[key] else FALLBACK
  }

  /** The five registered values get their own label, every other value the fallback. */
  lemma CategoryNameCases(key: string)
    ensures forall i :: 0 <= i < |CATEGORY_KEYS| && key == CATEGORY_KEYS[i] ==> CategoryName(key) == CATEGORY_LABELS[i]
    ensures key !in CATEGORY_KEYS ==> CategoryName(key) == FALLBACK
  {
  }

  datatype MenuOption = MenuOption(value: string, title: string)

  /**
   * The options of the category menu, `Object.entries(CATEGORY_NAMES)`: each
   * option is a registered key with its label, every key has an option, and
   * no key has two.
   */
  function MenuOptions(): (options: seq<MenuOption>)
    ensures |options| == |CATEGORY_NAMES|
    ensures forall i :: 0 <= i < |options| ==>
      options[i].value in CATEGORY_NAMES && CATEGORY_NAMES[options[i].value] == options[i].title
    ensures forall key :: key in CATEGORY_NAMES ==> exists i :: 0 <= i < |options| && options[i].value == key
    ensures forall i, j :: 0 <= i < j < |options| ==> options[i].value != options[j].value
  {
    var options := seq(|CATEGORY_KEYS|, i requires 0 <= i < |CATEGORY_KEYS| => MenuOption(CATEGORY_KEYS[i], CATEGORY_LABELS[i]));
    KeysAreTheTable();
    assert forall i :: 0 <= i < |options| ==> options[i].value == CATEGORY_KEYS[i];
    options
  }

  /** The key list holds the table's keys, once each, in the table's declaration order. */
  lemma KeysAreTheTable()
    ensures |CATEGORY_KEYS| == |CATEGORY_LABELS| == |CATEGORY_NAMES|
    ensures forall i :: 0 <= i < |CATEGORY_KEYS| ==>
      CATEGORY_KEYS[i] in CATEGORY_NAMES && CATEGORY_NAMES[CATEGORY_KEYS[i]] == CATEGORY_LABELS[i]
    ensures forall key :: key in CATEGORY_NAMES ==> key in CATEGORY_KEYS
    ensures forall i, j :: 0 <= i < j < |CATEGORY_KEYS| ==> CATEGORY_KEYS[i] != CATEGORY_KEYS[j]
  {
    KeysDistinct();
    TableKeys();
  }

  /** The five keys are pairwise different. */
  lemma KeysDistinct()
    ensures forall i, j :: 0 <= i < j < |CATEGORY_KEYS| ==> CATEGORY_KEYS[i] != CATEGORY_KEYS[j]
  {
  }

  /** The table's keys are exactly the five of the key list. */
  lemma TableKeys()
    ensures CATEGORY_NAMES.Keys == {CATEGORY_KEYS[0], CATEGORY_KEYS[1], CATEGORY_KEYS[2], CATEGORY_KEYS[3], CATEGORY_KEYS[4]}
  {
  }

  /** Picking any option of the menu opens a ticket under that option's title. */
  lemma MenuMatchesRegistry(o: MenuOption)
    requires o in MenuOptions()
    ensures CategoryName(o.value) == o.title && o.title != FALLBACK
  {
    var i :| 0 <= i < |MenuOptions()| && MenuOptions()[i] == o;
  }
}

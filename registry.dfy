/**
 * The static tables of tg_node_display_options.py: the node classes the tool
 * knows, the preview parameters of each (class_dict), the label shown for each
 * (class_labels_dict), and the five checkboxes of the multi-parameter classes
 * (checkbox_status).
 *
 * Python dictionaries keep insertion order and the radio buttons are numbered in
 * that order, so both tables are ordered association lists.
 */
module Registry {
  import opened Wrappers

  /** The parameter that hides a whole node; it carries five sibling options. */
  const MainHidden: string := "preview_options_main_hidden"
  const BBoxParam: string := "show_b-box_in_preview"
  const HandleParam: string := "handle_in_preview"
  const EdgesParam: string := "draw_shape_edges_in_preview"
  const BodyParam: string := "show_camera_body_in_preview"
  const FrustumParam: string := "show_frustum_in_preview"
  const PathParam: string := "show_path_in_preview"

  /** The sibling preview modes of MainHidden, in the order they are written. */
  const Textured: string := "preview_options_main_textured"
  const OtherPreviewOptions: seq<string> := [
    "preview_options_main_bounding_box",
    "preview_options_main_wireframe",
    "preview_options_wf_bounding_box",
    "preview_options_main_smooth_shaded",
    Textured
  ]

  /** class_dict: node class -> its preview parameters, in declaration order. */
  const ClassDict: seq<(string, seq<string>)> := [
    ("bounding_box", [MainHidden]),
    ("card", [MainHidden]),
    ("cube", [BBoxParam]),
    ("disc", [BBoxParam]),
    ("grass_clump", [MainHidden]),
    ("lake", [HandleParam]),
    ("lwo_reader", [MainHidden]),
    ("obj_reader", [MainHidden]),
    ("octahedron", [BBoxParam]),
    ("planet", [BBoxParam]),
    ("poly_sphere", [MainHidden]),
    ("populator_v4", [BBoxParam]),
    ("rock", [MainHidden]),
    ("sphere", [BBoxParam]),
    ("tgo_reader", [MainHidden]),
    ("heightfield_shader", [BBoxParam]),
    ("simple_shape_shader", [BBoxParam, EdgesParam]),
    ("camera", [BodyParam, FrustumParam, PathParam])
  ]

  /** class_labels_dict: node class -> label of its radio button. */
  const ClassLabels: seq<(string, string)> := [
    ("bounding_box", "Bounding box"),
    ("card", "Card"),
    ("cube", "Cube"),
    ("disc", "Disc"),
    ("grass_clump", "Grass clump"),
    ("lake", "Lake"),
    ("lwo_reader", "LWO reader"),
    ("obj_reader", "OBJ reader"),
    ("octahedron", "Octahedron"),
    ("planet", "Planet"),
    ("poly_sphere", "Poly sphere"),
    ("populator_v4", "Populator"),
    ("rock", "Rock"),
    ("sphere", "Sphere"),
    ("tgo_reader", "TGO reader"),
    ("heightfield_shader", "Heightfield"),
    ("simple_shape_shader", "Simple Shape"),
    ("camera", "Camera")
  ]

  /** No element occurs twice (dictionary keys, node lists, parameter lists). */
  ghost predicate NoRepeats<T>(s: seq<T>) {
    forall i, j :: 0 <= i < j < |s| ==> s[i] != s[j]
  }

  /** The keys of an association list, in order (list(d.keys()) in Python). */
  function Keys<V>(table: seq<(string, V)>): (ks: seq<string>)
    ensures |ks| == |table|
    ensures forall i :: 0 <= i < |table| ==> ks[i] == table[i].0
  {
    if table == [] then [] else [table[0].0] + Keys(table[1..])
  }

  /** Dictionary lookup: the value of the first entry with this key, if any. */
  function Find<V>(table: seq<(string, V)>, key: string): (r: Option<V>)
    ensures r.None? <==> key !in Keys(table)
    ensures r.Some? ==> exists i :: 0 <= i < |table| && table[i] == (key, r.value)
  {
    if table == [] then None
    else if table[0].0 == key then Some(table[0].1)
    else Find(table[1..], key)
  }

  /** class_list: the classes in radio-button order. */
  function ClassList(): (cs: seq<string>)
    ensures |cs| == |ClassDict|
    ensures forall i :: 0 <= i < |cs| ==> cs[i] == ClassDict[i].0
  {
    Keys(ClassDict)
  }

  /** class_dict[cls]: the parameter list of a registered class. */
  function ParamsFor(cls: string): Option<seq<string>>
  {
    Find(ClassDict, cls)
  }

  /** A class has a parameter list exactly when it is one of the radio-button classes. */
  lemma ParamsForRegistered(cls: string)
    ensures ParamsFor(cls).Some? <==> cls in ClassList()
    ensures ParamsFor(cls).Some? ==> exists i :: 0 <= i < |ClassDict| && ClassDict[i] == (cls, ParamsFor(cls).value)
  {
  }

  function LabelFor(cls: string): Option<string>
  {
    Find(ClassLabels, cls)
  }

  /** The five tkinter IntVars behind the checkboxes. */
  datatype Checkboxes = Checkboxes(
    boundingBox: int,
    profileEdge: int,
    body: int,
    frustum: int,
    path: int)

  /** Every checkbox starts checked. */
  const DefaultCheckboxes := Checkboxes(1, 1, 1, 1, 1)

  /** checkbox_status: the checkbox that governs a parameter; None for any other parameter. */
  function CheckboxStatus(cb: Checkboxes, param: string): (r: Option<int>)
    ensures r.Some? <==> param in {BodyParam, FrustumParam, PathParam, BBoxParam, EdgesParam}
    ensures param == BodyParam ==> r == Some(cb.body)
    ensures param == FrustumParam ==> r == Some(cb.frustum)
    ensures param == PathParam ==> r == Some(cb.path)
    ensures param == BBoxParam ==> r == Some(cb.boundingBox)
    ensures param == EdgesParam ==> r == Some(cb.profileEdge)
  {
    if param == BodyParam then Some(cb.body)
    else if param == FrustumParam then Some(cb.frustum)
    else if param == PathParam then Some(cb.path)
    else if param == BBoxParam then Some(cb.boundingBox)
    else if param == EdgesParam then Some(cb.profileEdge)
    else None
  }
}

/**
 * Invariants of the two registry tables: the same eighteen distinct classes
 * in the same order, a non-empty parameter list for each, main-hidden only
 * on its own, and a checkbox for every parameter of a multi-parameter class.
 */
module RegistryProperties {
  import opened Wrappers
  import opened Registry

  /** The class names of class_dict, spelled out. */
  const ClassNames: seq<string> := [
    "bounding_box", "card", "cube", "disc", "grass_clump", "lake",
    "lwo_reader", "obj_reader", "octahedron", "planet", "poly_sphere", "populator_v4",
    "rock", "sphere", "tgo_reader", "heightfield_shader", "simple_shape_shader", "camera"
  ]

  lemma SameKeys<V, W>(t1: seq<(string, V)>, t2: seq<(string, W)>)
    requires |t1| == |t2| && forall i :: 0 <= i < |t1| ==> t1[i].0 == t2[i].0
    ensures Keys(t1) == Keys(t2)
  {
    assert forall i :: 0 <= i < |t1| ==> Keys(t1)[i] == Keys(t2)[i];
  }

  lemma ClassListSpelled()
    ensures ClassList() == ClassNames
  {
    assert forall i :: 0 <= i < |ClassDict| ==> ClassDict[i].0 == ClassNames[i];
  }

  lemma ClassNamesUnique()
    ensures NoRepeats(ClassNames)
  {
  }

  lemma LabelKeysSpelled()
    ensures Keys(ClassLabels) == ClassNames
  {
    assert forall i :: 0 <= i < |ClassDict| ==> ClassDict[i].0 == ClassNames[i];
    assert forall i :: 0 <= i < |ClassLabels| ==> ClassLabels[i].0 == ClassNames[i];
    SameKeys(ClassLabels, ClassDict);
    ClassListSpelled();
  }

  /** class_dict and class_labels_dict: eighteen distinct classes, the same keys in the same order. */
  lemma TablesAgree()
    ensures |ClassList()| == 18 && NoRepeats(ClassList())
    ensures Keys(ClassLabels) == ClassList()
  {
    ClassListSpelled();
    ClassNamesUnique();
    LabelKeysSpelled();
  }

  /** With distinct keys, looking up the i-th key finds the i-th value. */
  lemma {:induction false} FindEntry<V>(table: seq<(string, V)>, i: nat)
    requires i < |table| && NoRepeats(Keys(table))
    ensures Find(table, table[i].0) == Some(table[i].1)
    decreases i
  {
    if i > 0 {
      assert Keys(table)[0] != Keys(table)[i];
      assert NoRepeats(Keys(table[1..])) by {
        forall x, y | 0 <= x < y < |table| - 1 ensures Keys(table[1..])[x] != Keys(table[1..])[y] {
          assert Keys(table)[x + 1] != Keys(table)[y + 1];
        }
      }
      FindEntry(table[1..], i - 1);
    }
  }

  /** Every radio button selects a class that has its own parameters and label. */
  lemma EveryClassRegistered(i: nat)
    requires i < |ClassList()|
    ensures ParamsFor(ClassList()[i]) == Some(ClassDict[i].1)
    ensures LabelFor(ClassList()[i]) == Some(ClassLabels[i].1)
  {
    TablesAgree();
    FindEntry(ClassDict, i);
    FindEntry(ClassLabels, i);
  }

  /**
   * Every class has at least one parameter; main-hidden only ever appears
   * alone; and every parameter of a multi-parameter class has a checkbox.
   */
  lemma ParameterListsWellFormed(i: nat)
    requires i < |ClassDict|
    ensures |ClassDict[i].1| >= 1
    ensures NoRepeats(ClassDict[i].1)
    ensures MainHidden in ClassDict[i].1 ==> ClassDict[i].1 == [MainHidden]
    ensures |ClassDict[i].1| > 1 ==> forall q :: q in ClassDict[i].1 ==> CheckboxStatus(DefaultCheckboxes, q).Some?
  {
  }

  /** Exactly two classes have more than one parameter: simple_shape_shader and camera. */
  lemma MultiParameterClasses(i: nat)
    requires i < |ClassDict|
    ensures |ClassDict[i].1| > 1 <==> ClassDict[i].0 in {"simple_shape_shader", "camera"}
  {
    ClassNamesUnique();
    assert forall k :: 0 <= k < |ClassDict| ==> ClassDict[k].0 == ClassNames[k];
    if i < 16 {
      assert ClassNames[i] != ClassNames[16] && ClassNames[i] != ClassNames[17];
    }
  }
}

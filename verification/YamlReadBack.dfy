/**
 What a reader makes of an edited text: where the edit fits, every well-formed reading of it has the
 value asked for.
 */
module YamlReadBack {
  import opened Text
  import opened YamlValue
  import opened YamlEmit
  import opened YamlTree
  import opened YamlEdit
  import YamlMarks
  import opened YamlSplice
  import opened YamlFits
  import opened YamlRemove
  import opened YamlRemoveFits
  import opened YamlUnique

  /** However the text `set_value` returns is read as a document of this model, its value is `_with` of the old one. */
  lemma SetReadsAs(d: Doc, m: CNode, path: seq<Part>, value: Value, flow: bool, x: Doc)
    requires DocOk(d) && YamlMarks.Composed(PrintDoc(d), d.root.node, |KidHead(d.root)|, m)
    requires SetValue(PrintDoc(d), Some(m), path, value, flow).Ok? && DocFits(d, path, value, flow)
    requires DocOk(x) && PrintDoc(x) == SetValue(PrintDoc(d), Some(m), path, value, flow).value
    ensures With(DocValue(d), path, value) == Some(DocValue(x))
  {
    hide *;
    SetValueReadsBack(d, m, path, value, flow);
    DocUnique(x, EditDoc(d, path, value, flow).value);
  }

  /** And so of the text `remove_value` returns, by `_without`; unchanged where the path names nothing. */
  lemma RemoveReadsAs(d: Doc, m: CNode, path: seq<Part>, x: Doc)
    requires DocOk(d) && YamlMarks.Composed(PrintDoc(d), d.root.node, |KidHead(d.root)|, m)
    requires RemoveValue(PrintDoc(d), Some(m), path).Ok? && RemoveDocFits(d, path)
    requires DocOk(x) && PrintDoc(x) == RemoveValue(PrintDoc(d), Some(m), path).value
    ensures if Names(d.root.node, path) then Without(DocValue(d), path) == Some(DocValue(x))
            else DocValue(x) == DocValue(d)
  {
    hide *;
    RemoveValueReadsBack(d, m, path);
    DocUnique(x, RemoveDoc(d, path).value);
  }
}

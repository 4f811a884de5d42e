/** The import decision of util/util.go: the cluster's own label first, then the label of its namespace. */
module ImportDecision {
  import opened Wrappers

  /** Go's strconv.ParseBool; None is the parse error. */
  function ParseBool(s: string): Option<bool> {
    if Truthy(s) then Some(true)
    else if s in {"0", "f", "F", "false", "FALSE", "False"} then Some(false)
    else None
  }

  predicate Truthy(s: string) {
    s in {"1", "t", "T", "true", "TRUE", "True"}
  }

  /** (hasLabel, labelValue): a label that does not parse counts as present and false. */
  function ShouldImport(mark: Option<string>): (bool, bool) {
    match mark
    case None => (false, false)
    case Some(s) => (true, ParseBool(s).GetOr(false))
  }

  datatype Verdict = Accept | Refuse | AskNamespace

  /** The part of ShouldAutoImport that needs no namespace. An explicit false refuses; a true label with the
      `imported` annotation falls through to the namespace, exactly as no label does. */
  function ClusterVerdict(mark: Option<string>, imported: bool): Verdict {
    var (marked, autoImport) := ShouldImport(mark);
    if marked && autoImport && !imported then Accept
    else if marked && !autoImport then Refuse
    else AskNamespace
  }

  /** `namespaceLabel` is None when the namespace cannot be read, which is an error. */
  function ShouldAutoImport(mark: Option<string>, imported: bool, namespaceLabel: Option<Option<string>>): Option<bool> {
    match ClusterVerdict(mark, imported)
    case Accept => Some(true)
    case Refuse => Some(false)
    case AskNamespace => if namespaceLabel.None? then None else Some(ShouldImport(namespaceLabel.value).1)
  }

  /** strconv.ParseBool accepts these texts. */
  lemma ParseBoolExactly(s: string)
    ensures Truthy(s) <==> s == "1" || s == "t" || s == "T" || s == "true" || s == "TRUE" || s == "True"
    ensures ParseBool(s) == Some(true) <==> Truthy(s)
    ensures ParseBool(s) == Some(false) <==> s == "0" || s == "f" || s == "F" || s == "false" || s == "FALSE" || s == "False"
  {
    assert "1"[0] == '1' && "t"[0] == 't' && "T"[0] == 'T' && "true"[0] == 't' && "TRUE"[0] == 'T' && "True"[0] == 'T';
    if Truthy(s) {
      assert s != "" && (s[0] == '1' || s[0] == 't' || s[0] == 'T');
    }
  }

  /** The annotation alone does not stop an import: with it, a cluster is imported exactly when its own label
      is absent or true and its namespace is labelled true. */
  lemma AnnotatedImportExactly(mark: Option<string>, namespaceLabel: Option<Option<string>>)
    ensures ShouldAutoImport(mark, true, namespaceLabel) == Some(true) <==>
      (mark.Some? ==> Truthy(mark.value)) && namespaceLabel.Some? && namespaceLabel.value.Some? && Truthy(namespaceLabel.value.value)
    ensures ShouldAutoImport(mark, true, namespaceLabel) == Some(true) ==> ShouldAutoImport(mark, false, namespaceLabel) == Some(true)
  {
  }

  /** The whole decision: the cluster's own true label wins unless the annotation is there, any other label of its
      own refuses, and else the namespace decides; an unreadable namespace is an error only when it is asked. */
  lemma AutoImportExactly(mark: Option<string>, imported: bool, namespaceLabel: Option<Option<string>>)
    ensures var own, refused := mark.Some? && Truthy(mark.value) && !imported, mark.Some? && !Truthy(mark.value);
      && (ShouldAutoImport(mark, imported, namespaceLabel).None? <==> !own && !refused && namespaceLabel.None?)
      && (ShouldAutoImport(mark, imported, namespaceLabel) == Some(true) <==>
            own || (!refused && namespaceLabel.Some? && namespaceLabel.value.Some? && Truthy(namespaceLabel.value.value)))
  {
  }
}

/**
 * The part of a workspace object-info tuple the app cell reads, and the
 * absolute reference `wsid/objid/version` it builds from it.
 */
module Workspace {
  import opened Wrappers
  import opened Text

  /** Positions 0 (object id), 1 (name), 4 (version) and 6 (workspace id) of an object-info tuple. */
  datatype ObjectInfo = ObjectInfo(objId: nat, name: string, version: nat, wsId: nat)

  /** `[info[6], info[0], info[4]].join('/')`. */
  function Ref(info: ObjectInfo): string {
    Join([NatToString(info.wsId), NatToString(info.objId), NatToString(info.version)], '/')
  }

  /** The three numbers of a reference `wsid/objid/version`, or `None` when the text is not one. */
  function ParseRef(s: string): (r: Option<(nat, nat, nat)>)
  {
    var parts := Split(s, '/');
    if |parts| == 3 && (forall i :: 0 <= i < 3 ==> |parts[i]| >= 1 && IsDigits(parts[i])) then
      Some((DigitsValue(parts[0]), DigitsValue(parts[1]), DigitsValue(parts[2])))
    else None
  }

  /** A reference reads back as the workspace id, object id and version it was built from. */
  lemma RefRoundTrip(info: ObjectInfo)
    ensures ParseRef(Ref(info)) == Some((info.wsId, info.objId, info.version))
  {
    var parts := [NatToString(info.wsId), NatToString(info.objId), NatToString(info.version)];
    forall i | 0 <= i < |parts| ensures '/' !in parts[i] {
      DigitsHaveNoSeparator(parts[i], '/');
    }
    SplitJoin(parts, '/');
    NatToStringRoundTrip(info.wsId);
    NatToStringRoundTrip(info.objId);
    NatToStringRoundTrip(info.version);
  }

  /** Two objects have the same reference only when they have the same three numbers. */
  lemma RefInjective(a: ObjectInfo, b: ObjectInfo)
    requires Ref(a) == Ref(b)
    ensures a.wsId == b.wsId && a.objId == b.objId && a.version == b.version
  {
    RefRoundTrip(a);
    RefRoundTrip(b);
  }
}

/**
 How connections are shown: their folders, captions and colors, as connections.json has them
 (`_write_connections_file`, `set_connection_details`, `get_connection_details`).

 How a detail is written in its one form, and which are refused, is a Normalizer's to say;
 SteadyNormalizer is what is used of it.
 */
module ConnectionDetails {
  import opened KeyUpgrade
  import opened Wrappers

  datatype Details = Details(path: string, caption: string, color: string) {
    function Or(other: Details): Details {
      if this == NONE then other else this
    }
  }

  const NONE := Details("", "", "")

  /** The entries of the file: each of them shows its connection in some way. */
  type Files = map<Id, Details>

  /** What a caller asks for; what it leaves out stays. */
  datatype Changes = Changes(path: Option<string>, caption: Option<string>, color: Option<string>)

  datatype Written = Written | Unwritten | Unlisted

  /** Each answers None where it refuses the detail. */
  datatype Normalizer = Normalizer(
    path: string -> Option<string>, caption: string -> Option<string>, color: string -> Option<string>)

  /** What is normal is left as it is. */
  ghost predicate SteadyNormalizer(norm: Normalizer) {
    && (forall s :: norm.path(s).Some? ==> norm.path(norm.path(s).value) == norm.path(s))
    && (forall s :: norm.caption(s).Some? ==> norm.caption(norm.caption(s).value) == norm.caption(s))
    && (forall s :: norm.color(s).Some? ==> norm.color(norm.color(s).value) == norm.color(s))
  }

  predicate Refuses(normalize: string -> Option<string>, asked: Option<string>) {
    asked.Some? && normalize(asked.value).None?
  }

  function Normal(normalize: string -> Option<string>, asked: Option<string>): Option<string> {
    if asked.None? then None else normalize(asked.value)
  }

  /** The changes in their one form, None where one of them is refused. */
  function Settled(norm: Normalizer, changes: Changes): Option<Changes> {
    if Refuses(norm.path, changes.path) || Refuses(norm.caption, changes.caption) || Refuses(norm.color, changes.color)
    then None
    else Some(Changes(Normal(norm.path, changes.path), Normal(norm.caption, changes.caption),
                      Normal(norm.color, changes.color)))
  }

  lemma SettledOnce(norm: Normalizer, changes: Changes)
    requires SteadyNormalizer(norm) && Settled(norm, changes).Some?
    ensures Settled(norm, Settled(norm, changes).value) == Settled(norm, changes)
  {
  }

  function Changed(details: Details, changes: Changes): Details {
    Details(if changes.path.Some? then changes.path.value else details.path,
            if changes.caption.Some? then changes.caption.value else details.caption,
            if changes.color.Some? then changes.color.value else details.color)
  }

  /** All three details asked for. */
  function All(details: Details): Changes {
    Changes(Some(details.path), Some(details.caption), Some(details.color))
  }

  /** The details asked for in full, in their one form. */
  function Normalized(norm: Normalizer, details: Details): Option<Details> {
    match Settled(norm, All(details))
    case Some(changes) => Some(Changed(NONE, changes))
    case None => None
  }

  lemma AllOfThem(norm: Normalizer, details: Details, before: Details)
    ensures Settled(norm, All(details)).Some? <==> Normalized(norm, details).Some?
    ensures Settled(norm, All(details)).Some? ==>
              && Settled(norm, All(details)).value != Changes(None, None, None)
              && Changed(before, Settled(norm, All(details)).value) == Normalized(norm, details).value
  {
  }

  function Shown(file: Files, id: Id): Details {
    if id in file then file[id] else NONE
  }

  /** What the file keeps when it is written: the details of what is stored, where there are any. */
  function OfStored(details: Files, stored: set<Id>): Files {
    map id | id in details && id in stored && details[id] != NONE :: details[id]
  }

  function WithDetails(file: Files, stored: set<Id>, id: Id, changes: Changes): Files {
    if changes == Changes(None, None, None) then file
    else OfStored(file[id := Changed(Shown(file, id), changes)], stored)
  }

  /** These connections are shown as before. */
  ghost predicate ShownAlike(before: Files, after: Files, ids: set<Id>) {
    forall id :: id in ids ==> Shown(after, id) == Shown(before, id)
  }

  /** A change shows in its connection, each detail as asked for or else as it was, and in no other that is
      stored; written, the file keeps only what is stored and shown in some way. */
  lemma ChangeShows(file: Files, stored: set<Id>, id: Id, changes: Changes)
    ensures ShownAlike(file, WithDetails(file, stored, id, changes), stored - {id})
    ensures id in stored ==> Shown(WithDetails(file, stored, id, changes), id) == Changed(Shown(file, id), changes)
    ensures id in stored ==>
              var shown := Shown(WithDetails(file, stored, id, changes), id);
              && shown.path == (if changes.path.Some? then changes.path.value else Shown(file, id).path)
              && shown.caption == (if changes.caption.Some? then changes.caption.value else Shown(file, id).caption)
              && shown.color == (if changes.color.Some? then changes.color.value else Shown(file, id).color)
    ensures if changes.path.None? && changes.caption.None? && changes.color.None?
            then WithDetails(file, stored, id, changes) == file
            else forall other :: other in WithDetails(file, stored, id, changes) ==>
                   other in stored && WithDetails(file, stored, id, changes)[other] != Details("", "", "")
  {
  }

  /** What is settled: nothing where one of the details asked for is refused, and else each that was asked for
      in its one form, and none that was not. */
  lemma EachIsSettled(norm: Normalizer, changes: Changes)
    ensures Settled(norm, changes).None? <==>
            || (changes.path.Some? && norm.path(changes.path.value).None?)
            || (changes.caption.Some? && norm.caption(changes.caption.value).None?)
            || (changes.color.Some? && norm.color(changes.color.value).None?)
    ensures Settled(norm, changes).Some? ==>
              var settled := Settled(norm, changes).value;
              && settled.path == (if changes.path.Some? then norm.path(changes.path.value) else None)
              && settled.caption == (if changes.caption.Some? then norm.caption(changes.caption.value) else None)
              && settled.color == (if changes.color.Some? then norm.color(changes.color.value) else None)
  {
  }

  /** Where the file could not be read, a change leaves nothing of the others: they are shown as before
      exactly when none of them was shown in any way. */
  lemma UnreadChangeLosesTheOthers(file: Files, stored: set<Id>, id: Id, changes: Changes)
    requires changes != Changes(None, None, None)
    ensures ShownAlike(file, WithDetails(map[], stored, id, changes), stored - {id})
            <==> forall other :: other in stored - {id} ==> Shown(file, other) == NONE
  {
    forall other | other != id ensures Shown(WithDetails(map[], stored, id, changes), other) == NONE {
    }
  }

  lemma ForgettingShows(file: Files, after: Files, stored: set<Id>, id: Id)
    requires after in {file, OfStored(file - {id}, stored)} && id !in stored
    ensures ShownAlike(file, after, stored)
  {
  }

  lemma AlikeInTurn(before: Files, between: Files, after: Files, ids: set<Id>, fewer: set<Id>)
    requires ShownAlike(before, between, ids) && ShownAlike(between, after, fewer) && fewer <= ids
    ensures ShownAlike(before, after, fewer)
  {
    hide Shown;
  }

  lemma AlikeAtFirst(file: Files, ids: set<Id>)
    ensures ShownAlike(file, file, ids)
  {
  }

  lemma AlikeToo(before: Files, between: Files, after: Files, ids: set<Id>, fewer: set<Id>, id: Id)
    requires ShownAlike(before, between, ids - {id}) && ShownAlike(between, after, fewer) && fewer <= ids
    ensures ShownAlike(before, after, fewer - {id}) && (id in fewer ==> Shown(after, id) == Shown(between, id))
  {
    hide Shown;
  }

  lemma NothingToSettle(norm: Normalizer)
    ensures Settled(norm, Changes(None, None, None)) == Some(Changes(None, None, None))
  {
  }

  lemma NothingToShow(file: Files, stored: set<Id>, id: Id)
    ensures WithDetails(file, stored, id, Changes(None, None, None)) == file
  {
  }

  /** How the first of some connections that is shown in some way is shown. */
  function FirstShown(file: Files, kind: Kind, uris: seq<string>): Details {
    if uris == [] then NONE else Shown(file, Id(kind, uris[0])).Or(FirstShown(file, kind, uris[1..]))
  }

  lemma {:induction false} FirstShownAlike(before: Files, after: Files, kind: Kind, uris: seq<string>)
    requires forall uri :: uri in uris ==> Shown(after, Id(kind, uri)) == Shown(before, Id(kind, uri))
    ensures FirstShown(after, kind, uris) == FirstShown(before, kind, uris)
  {
    hide Shown;
    if uris != [] {
      assert uris[0] in uris;
      FirstShownAlike(before, after, kind, uris[1..]);
    }
  }

  /** Shown in some way. */
  predicate HasDetails(file: Files, id: Id) {
    id in file && (file[id].path != "" || file[id].caption != "" || file[id].color != "")
  }

  /** What the first of them that is shown in some way is shown with, and nothing where none of them is. */
  lemma {:induction false} FirstShownIs(file: Files, kind: Kind, uris: seq<string>, k: nat)
    ensures (forall i :: 0 <= i < |uris| ==> !HasDetails(file, Id(kind, uris[i]))) ==>
              FirstShown(file, kind, uris) == Details("", "", "")
    ensures k < |uris| && HasDetails(file, Id(kind, uris[k]))
            && (forall i :: 0 <= i < k ==> !HasDetails(file, Id(kind, uris[i]))) ==>
              FirstShown(file, kind, uris) == file[Id(kind, uris[k])]
  {
    if uris != [] {
      var rest := uris[1..];
      assert forall i :: 0 <= i < |rest| ==> rest[i] == uris[i + 1];
      FirstShownIs(file, kind, rest, if k > 0 then k - 1 else 0);
      assert forall i :: 0 < i < |uris| ==> uris[i] == rest[i - 1];
    }
  }

  /** What a connection without details takes over from its superseded spellings. */
  function Inherited(norm: Normalizer, file: Files, kind: Kind, uris: seq<string>): Details {
    var first := FirstShown(file, kind, uris);
    if first != NONE && Normalized(norm, first).Some? then Normalized(norm, first).value else NONE
  }

  /** That, each detail in its one form, where none of them is refused. */
  lemma InheritedIs(norm: Normalizer, file: Files, kind: Kind, uris: seq<string>)
    ensures var first := FirstShown(file, kind, uris);
            var inherited := Inherited(norm, file, kind, uris);
            if first == Details("", "", "") || norm.path(first.path).None? || norm.caption(first.caption).None?
               || norm.color(first.color).None?
            then inherited == Details("", "", "")
            else norm.path(first.path) == Some(inherited.path) && norm.caption(first.caption) == Some(inherited.caption)
                 && norm.color(first.color) == Some(inherited.color)
  {
  }

  lemma NothingInherited(norm: Normalizer, file: Files, id: Id)
    ensures Inherited(norm, file, id.kind, []) == NONE && ShownAlike(file, file, {})
    ensures forall ids :: ShownAlike(file, file, ids)
  {
  }

  /** One of them is shown with details the normalizer refuses. */
  ghost predicate Unshowable(norm: Normalizer, file: Files, ids: set<Id>) {
    exists id :: id in ids && Shown(file, id) != NONE && Normalized(norm, Shown(file, id)).None?
  }

  lemma {:induction false} FirstRefused(norm: Normalizer, file: Files, kind: Kind, uris: seq<string>, ids: set<Id>)
    requires forall uri :: uri in uris ==> Id(kind, uri) in ids
    requires FirstShown(file, kind, uris) != NONE && Normalized(norm, FirstShown(file, kind, uris)).None?
    ensures Unshowable(norm, file, ids)
  {
    hide Normalized, Shown;
    if Shown(file, Id(kind, uris[0])) != NONE {
      assert uris[0] in uris;
    } else {
      FirstRefused(norm, file, kind, uris[1..], ids);
    }
  }

  lemma UnshowableAlike(norm: Normalizer, before: Files, after: Files, ids: set<Id>, some: set<Id>)
    requires ShownAlike(before, after, ids) && some <= ids && Unshowable(norm, after, some)
    ensures Unshowable(norm, before, some)
  {
    hide Normalized, Shown;
  }

  /** A change shown in a connection, then what its superseded spellings pass on to it. */
  lemma ConfiguringShows(norm: Normalizer, before: Files, between: Files, after: Files, ids: set<Id>, fewer: set<Id>,
                         id: Id, superseded: seq<string>)
    requires ShownAlike(before, between, ids - {id}) && ShownAlike(between, after, fewer - {id}) && fewer <= ids
    requires Shown(after, id) == Shown(between, id).Or(Inherited(norm, between, id.kind, superseded))
    requires forall uri :: uri in superseded ==> Id(id.kind, uri) in ids - {id}
    ensures Shown(after, id) == Shown(between, id).Or(Inherited(norm, before, id.kind, superseded))
    ensures ShownAlike(before, after, fewer - {id})
  {
    hide Shown, Normalized;
    FirstShownAlike(before, between, id.kind, superseded);
  }

  lemma InheritingShows(norm: Normalizer, file: Files, stored: set<Id>, id: Id, first: Details)
    requires Settled(norm, All(first)).Some?
    ensures var after := WithDetails(file, stored, id, Settled(norm, All(first)).value);
            && (id in stored ==> Normalized(norm, first) == Some(Shown(after, id)))
            && ShownAlike(file, after, stored - {id})
  {
    hide ShownAlike, Shown, WithDetails, Settled;
    AllOfThem(norm, first, Shown(file, id));
    ChangeShows(file, stored, id, Settled(norm, All(first)).value);
  }

  /** The file holds its details in their one form. */
  ghost predicate InOneForm(norm: Normalizer, file: Files) {
    forall id :: id in file ==> Normalized(norm, file[id]) == Some(file[id])
  }

  /** Nothing is taken over exactly when none of the spellings was shown in any way. */
  lemma {:induction false} NothingInheritedExactlyWithoutDetails(norm: Normalizer, file: Files, kind: Kind,
                                                                 uris: seq<string>)
    requires InOneForm(norm, file)
    ensures Inherited(norm, file, kind, uris) == NONE
            <==> forall uri :: uri in uris ==> Shown(file, Id(kind, uri)) == NONE
    ensures FirstShown(file, kind, uris) == NONE
            || Normalized(norm, FirstShown(file, kind, uris)) == Some(FirstShown(file, kind, uris))
  {
    hide Normalized;
    if uris != [] {
      NothingInheritedExactlyWithoutDetails(norm, file, kind, uris[1..]);
      assert uris == [uris[0]] + uris[1..];
    }
  }

  /** A connection is shown as was asked exactly when something was asked for, or none of the spellings
      it supersedes was shown in any way: clearing everything while a connection is given another
      spelling brings back what it was shown with. */
  lemma ShownAsAskedExactlyWhen(norm: Normalizer, file: Files, kind: Kind, uris: seq<string>, asked: Details)
    requires InOneForm(norm, file)
    ensures asked.Or(Inherited(norm, file, kind, uris)) == asked
            <==> asked != NONE || forall uri :: uri in uris ==> Shown(file, Id(kind, uri)) == NONE
  {
    hide Inherited, Shown;
    NothingInheritedExactlyWithoutDetails(norm, file, kind, uris);
  }
}

// OSMWrangle's `Category`: one entry of a classification scheme, with the
// UUID assigned to it during transformation, its original identifier, its
// name and the identifier of its parent. Java's `null` is `None`.
module OsmCategory {
  import opened Wrappers
  import opened Text

  /** The four fields of a category. */
  datatype Fields = Fields(uuid: Option<string>, id: Option<string>, name: Option<string>, parent: Option<string>)

  /** `s.isEmpty() ? null : s`. */
  function NullIfEmpty(s: string): (r: Option<string>)
    ensures r.None? <==> s == ""
    ensures r.Some? ==> r.value == s
  {
    if s == "" then None else Some(s)
  }

  /** The fields a category is constructed with: every empty argument is null. */
  function Normalised(uuid: string, id: string, name: string, parent: string): (f: Fields)
    ensures f.uuid.Some? <==> uuid != ""
    ensures f.id.Some? <==> id != ""
    ensures f.name.Some? <==> name != ""
    ensures f.parent.Some? <==> parent != ""
    ensures f.id.Some? ==> f.id.value == id
    ensures f.parent.Some? ==> f.parent.value == parent
  {
    Fields(NullIfEmpty(uuid), NullIfEmpty(id), NullIfEmpty(name), NullIfEmpty(parent))
  }

  /** Java's string conversion of a possibly null string. */
  function Show(s: Option<string>): (r: string)
    ensures s.None? ==> r == "null"
    ensures s.Some? ==> r == s.value
  {
    if s.Some? then s.value else "null"
  }

  class Category {
    var uuid: Option<string>
    const id: Option<string>
    const name: Option<string>
    const parent: Option<string>

    function Value(): Fields
      reads this
    {
      Fields(uuid, id, name, parent)
    }

    /** An empty argument leaves its field null. */
    constructor(uuid: string, id: string, name: string, parent: string)
      ensures Value() == Normalised(uuid, id, name, parent)
      ensures HasUUID() <==> uuid != ""
      ensures HasId() <==> id != ""
      ensures HasName() <==> name != ""
      ensures HasParent() <==> parent != ""
    {
      this.uuid := NullIfEmpty(uuid);
      this.id := NullIfEmpty(id);
      this.name := NullIfEmpty(name);
      this.parent := NullIfEmpty(parent);
    }

    /** Replaces the UUID and nothing else. */
    method SetUUID(u: Option<string>)
      modifies this
      ensures Value() == old(Value()).(uuid := u)
    {
      uuid := u;
    }

    predicate HasUUID()
      reads this
    {
      uuid.Some?
    }

    predicate HasId()
      reads this
    {
      id.Some?
    }

    predicate HasParent()
      reads this
    {
      parent.Some?
    }

    predicate HasName()
      reads this
    {
      name.Some?
    }

    /** The identifier, name and parent, separated by single spaces. */
    function PrintContents(): (r: string)
      reads this
      ensures |r| >= 2
    {
      Show(id) + " " + Show(name) + " " + Show(parent)
    }
  }

  /** When no field contains a space, splitting the printed contents at the
    * spaces gives back the identifier, the name and the parent ("null" for
    * an absent one). */
  lemma {:induction false} PrintContentsSplit(c: Category)
    requires ' ' !in Show(c.id) && ' ' !in Show(c.name) && ' ' !in Show(c.parent)
    ensures Split(c.PrintContents(), ' ') == [Show(c.id), Show(c.name), Show(c.parent)]
  {
    var parts := [Show(c.id), Show(c.name), Show(c.parent)];
    JoinCons(parts[1], parts[2..], " ");
    JoinCons(parts[0], parts[1..], " ");
    assert parts[1..] == [parts[1]] + parts[2..];
    assert parts == [parts[0]] + parts[1..];
    assert Join(parts[2..], " ") == parts[2];
    assert Join(parts, [' ']) == c.PrintContents();
    SplitJoin(parts, ' ');
  }
}

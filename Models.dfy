/** The `Registration` model: the normalisation `save()` applies, the table with its
    case-insensitive unique plate and its `created` ordering, and `save()` itself, which
    writes a row and then fires the `post_save` receiver. */
module Models {
  import opened Wrappers
  import opened Text
  import opened Regex
  import opened Schema
  import opened Plates
  import opened Names
  import opened Receivers

  predicate Normalized(r: Registration)
  {
    r.plate == Upper(r.plate) && r.owner == Title(r.owner) && r.carModel == Upper(r.carModel)
  }

  /** What `save()` does to an instance before writing it: plate and model upper-cased,
      owner title-cased; `image` and `retrieve_image` pass through. */
  function Normalize(r: Registration): (n: Registration)
    ensures Normalized(n)
    ensures SamePlate(n.plate, r.plate)
    ensures |n.plate| == |r.plate| && |n.owner| == |r.owner| && |n.carModel| == |r.carModel|
    ensures forall i :: 0 <= i < |r.owner| ==> SameLetter(r.owner[i], n.owner[i])
    ensures forall i :: 0 <= i < |r.carModel| ==> SameLetter(r.carModel[i], n.carModel[i])
    ensures n.image == r.image && n.retrieveImage == r.retrieveImage
  {
    UpperIdempotent(r.plate);
    UpperIdempotent(r.carModel);
    TitleIdempotent(r.owner);
    r.(plate := Upper(r.plate), owner := Title(r.owner), carModel := Upper(r.carModel))
  }

  /** The contract of `Normalize` leaves no choice: a normalised record with the same
      letters, up to case, and the same image and flag is the normalised record. */
  lemma NormalizedFormIsUnique(r: Registration, m: Registration)
    requires Normalized(m) && m.image == r.image && m.retrieveImage == r.retrieveImage
    requires |m.plate| == |r.plate| && forall i :: 0 <= i < |r.plate| ==> SameLetter(r.plate[i], m.plate[i])
    requires |m.owner| == |r.owner| && forall i :: 0 <= i < |r.owner| ==> SameLetter(r.owner[i], m.owner[i])
    requires |m.carModel| == |r.carModel| && forall i :: 0 <= i < |r.carModel| ==> SameLetter(r.carModel[i], m.carModel[i])
    ensures m == Normalize(r)
  {
    UpperEqual(r.plate, m.plate);
    UpperEqual(r.carModel, m.carModel);
    TitleOfSameLetters(r.owner, m.owner);
  }

  /** Saving an already saved record changes nothing in its text fields. */
  lemma NormalizeIdempotent(r: Registration)
    ensures Normalize(Normalize(r)) == Normalize(r)
  {
    var n := Normalize(r);
    assert Normalize(n) == n;
  }

  /** Normalisation never takes a record out of the migration's grammar or length limits. */
  lemma NormalizeKeepsValid(r: Registration)
    requires FieldsValid(r)
    ensures FieldsValid(Normalize(r))
  {
    UpperKeepsPlate(r.plate);
    TitleKeepsTwoWords(r.owner);
    UpperKeepsTwoWords(r.carModel);
  }

  /** The values from the tests: "abc123", "john doe", "super car" are stored as
      "ABC123", "John Doe", "SUPER CAR". */
  lemma NormalizeExample()
    ensures Normalize(Registration("abc123", "john doe", "super car", "", true))
         == Registration("ABC123", "John Doe", "SUPER CAR", "", true)
  {
    assert Upper("abc123") == "ABC123";
    assert Title("john doe") == "John Doe";
    assert Upper("super car") == "SUPER CAR";
  }

  /** `__str__`: a record is shown by its plate, upper-case once saved. */
  function Str(r: Registration): (s: string)
    ensures Normalized(r) ==> Upper(s) == s
    ensures SamePlate(s, r.plate)
  {
    r.plate
  }

  /** The invariants of the table: rows are normalised, plates are unique ignoring case,
      and the rows are in `created` order with increasing ids, all below the clock. */
  ghost predicate TableValid(rows: seq<Row>, clock: nat)
  {
    && (forall i :: 0 <= i < |rows| ==> Normalized(rows[i].reg) && rows[i].id < clock && rows[i].created < clock)
    && (forall i, j :: 0 <= i < j < |rows| ==>
          rows[i].id < rows[j].id && rows[i].created < rows[j].created
          && !SamePlate(rows[i].reg.plate, rows[j].reg.plate))
  }

  /** `Registration.objects.get(plate=plate)`: the row whose plate equals `plate` ignoring case. */
  function FindPlate(rows: seq<Row>, plate: string): (r: Option<nat>)
    ensures r.Some? ==> r.value < |rows| && SamePlate(rows[r.value].reg.plate, plate)
    ensures r.None? <==> forall i :: 0 <= i < |rows| ==> !SamePlate(rows[i].reg.plate, plate)
  {
    if |rows| == 0 then None
    else if SamePlate(rows[0].reg.plate, plate) then Some(0)
    else match FindPlate(rows[1..], plate)
      case None => None
      case Some(k) => Some(k + 1)
  }

  /** The row with primary key `id`. */
  function FindId(rows: seq<Row>, id: nat): (r: Option<nat>)
    ensures r.Some? ==> r.value < |rows| && rows[r.value].id == id
    ensures r.None? <==> forall i :: 0 <= i < |rows| ==> rows[i].id != id
  {
    if |rows| == 0 then None
    else if rows[0].id == id then Some(0)
    else match FindId(rows[1..], id)
      case None => None
      case Some(k) => Some(k + 1)
  }

  /** Another row than `except` already holds `plate`, ignoring case. */
  predicate Conflict(rows: seq<Row>, plate: string, except: int)
  {
    exists j :: 0 <= j < |rows| && j != except && SamePlate(rows[j].reg.plate, plate)
  }

  /** In a valid table the lookup by plate finds the only row that could conflict. */
  lemma FindPlateDecidesConflict(rows: seq<Row>, clock: nat, plate: string, except: int)
    requires TableValid(rows, clock)
    ensures Conflict(rows, plate, except) <==>
            FindPlate(rows, plate).Some? && FindPlate(rows, plate).value != except
  {
    var hit := FindPlate(rows, plate);
    if Conflict(rows, plate, except) {
      var j :| 0 <= j < |rows| && j != except && SamePlate(rows[j].reg.plate, plate);
    }
  }

  /** Appending a normalised record with a free plate and a fresh stamp keeps the table valid. */
  lemma InsertKeepsValid(rows: seq<Row>, clock: nat, n: Registration)
    requires TableValid(rows, clock) && Normalized(n) && !Conflict(rows, n.plate, -1)
    ensures TableValid(rows + [Row(clock, clock, n)], clock + 1)
  {
    var rows' := rows + [Row(clock, clock, n)];
    forall i, j | 0 <= i < j < |rows'|
      ensures !SamePlate(rows'[i].reg.plate, rows'[j].reg.plate)
    {
      if j == |rows| {
        assert rows'[i] == rows[i] && rows'[j].reg == n;
      }
    }
  }

  /** Rewriting the record of one row, to a normalised one whose plate no other row holds,
      keeps the table valid. */
  lemma UpdateKeepsValid(rows: seq<Row>, clock: nat, k: nat, n: Registration)
    requires TableValid(rows, clock) && k < |rows| && Normalized(n) && !Conflict(rows, n.plate, k)
    ensures TableValid(rows[k := rows[k].(reg := n)], clock)
  {
    var rows' := rows[k := rows[k].(reg := n)];
    forall i, j | 0 <= i < j < |rows'|
      ensures !SamePlate(rows'[i].reg.plate, rows'[j].reg.plate)
    {
      if i == k {
        assert rows'[j] == rows[j];
      } else if j == k {
        assert rows'[i] == rows[i];
      }
    }
  }

  datatype SaveError = IntegrityError

  class Registry {
    /** The rows of the table, in the order of `created`. */
    var rows: seq<Row>
    /** Source of `id` and `created` for the next insert. */
    var clock: nat
    /** Where the `post_save` receiver sends its tasks. */
    const queue: TaskQueue

    ghost predicate Valid()
      reads this
    {
      TableValid(rows, clock)
    }

    constructor (queue: TaskQueue)
      ensures Valid() && rows == [] && clock == 0 && this.queue == queue
    {
      rows := [];
      clock := 0;
      this.queue := queue;
    }

    /** `Registration.objects.all()`: every row, ordered by `created`. */
    function List(): (r: seq<Row>)
      reads this
      requires Valid()
      ensures forall row :: row in r <==> row in rows
      ensures forall i, j :: 0 <= i < j < |r| ==> r[i].created < r[j].created
    {
      rows
    }

    /** `save()`: normalise, then insert (no `id`) or update the row with that `id`.
        A plate already held by another row, ignoring case, fails with IntegrityError
        and changes nothing. On success the `post_save` receiver runs on the stored values. */
    method Save(id: Option<nat>, inst: Registration) returns (r: Result<Row, SaveError>)
      requires Valid()
      requires id.Some? ==> FindId(rows, id.value).Some?
      modifies this, queue
      ensures Valid()
      ensures var n := Normalize(inst);
              var except := if id.Some? then FindId(old(rows), id.value).value else -1;
              if Conflict(old(rows), n.plate, except) then
                && r == Failure(IntegrityError)
                && rows == old(rows) && clock == old(clock) && queue.tasks == old(queue.tasks)
              else
                && r.Success? && r.value.reg == n
                && queue.tasks == old(queue.tasks) + Triggered(n)
                && (id.None? ==>
                      r.value == Row(old(clock), old(clock), n)
                      && rows == old(rows) + [r.value] && clock == old(clock) + 1)
                && (id.Some? ==>
                      r.value == old(rows)[except].(reg := n)
                      && rows == old(rows)[except := r.value] && clock == old(clock))
    {
      var n := Normalize(inst);
      var hit := FindPlate(rows, n.plate);
      if id.None? {
        FindPlateDecidesConflict(rows, clock, n.plate, -1);
        if hit.Some? {
          return Failure(IntegrityError);
        }
        InsertKeepsValid(rows, clock, n);
        var row := Row(clock, clock, n);
        rows := rows + [row];
        clock := clock + 1;
        r := Success(row);
      } else {
        var k := FindId(rows, id.value).value;
        FindPlateDecidesConflict(rows, clock, n.plate, k);
        if hit.Some? && hit.value != k {
          return Failure(IntegrityError);
        }
        UpdateKeepsValid(rows, clock, k, n);
        var row := rows[k].(reg := n);
        rows := rows[k := row];
        r := Success(row);
      }
      RegistrationPostSave(queue, n);
    }

    /** `Registration.objects.create(plate=…, owner=…, car_model=…)`: a new instance with a
        blank image and the flag raised, saved. A new record therefore always sends one
        task, carrying its upper-cased plate. */
    method Create(plate: string, owner: string, carModel: string) returns (r: Result<Row, SaveError>)
      requires Valid()
      modifies this, queue
      ensures Valid()
      ensures var n := Normalize(Registration(plate, owner, carModel, DefaultImage, DefaultRetrieveImage));
              if Conflict(old(rows), plate, -1) then
                r == Failure(IntegrityError)
                && rows == old(rows) && clock == old(clock) && queue.tasks == old(queue.tasks)
              else
                r == Success(Row(old(clock), old(clock), n))
                && rows == old(rows) + [r.value] && clock == old(clock) + 1
                && queue.tasks == old(queue.tasks) + [Upper(plate)]
    {
      r := Save(None, Registration(plate, owner, carModel, DefaultImage, DefaultRetrieveImage));
    }
  }
}

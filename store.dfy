/**
 * The drinks table as the request handlers see it: rows keyed by integer
 * id, listed by the database in an order of its own choosing, and read
 * through a projection (`short()` or `long()`) applied row by row.
 */
module DrinkStore {
  import opened JsonValue

  /** One row of the drinks table; its id is the key it is stored under. */
  datatype Drink = Drink(title: Json, recipe: Json)

  /** A projection of a row, given its id, to the JSON object sent to clients. */
  type View = (int, Drink) -> Json

  /** No id occurs twice in `listing`. */
  predicate Distinct(listing: seq<int>)
  {
    forall i, j :: 0 <= i < j < |listing| ==> listing[i] != listing[j]
  }

  /** `listing` names every row of `rows` exactly once: an answer to `query.all()`. */
  predicate Lists(listing: seq<int>, rows: map<int, Drink>)
  {
    && Distinct(listing)
    && (forall k :: 0 <= k < |listing| ==> listing[k] in rows)
    && (forall id :: id in rows ==> id in listing)
  }

  /** The projection of every listed row, in listing order (a list comprehension). */
  function Views(view: View, listing: seq<int>, rows: map<int, Drink>): (vs: seq<Json>)
    requires forall k :: 0 <= k < |listing| ==> listing[k] in rows
    ensures |vs| == |listing|
    ensures forall k :: 0 <= k < |listing| ==> vs[k] == view(listing[k], rows[listing[k]])
  {
    if listing == [] then [] else [view(listing[0], rows[listing[0]])] + Views(view, listing[1..], rows)
  }

  /** Every row of a listed table shows up, projected, among the views. */
  lemma ViewOfListed(view: View, listing: seq<int>, rows: map<int, Drink>, id: int)
    requires Lists(listing, rows)
    requires id in rows
    ensures view(id, rows[id]) in Views(view, listing, rows)
  {
    var k :| 0 <= k < |listing| && listing[k] == id;
    assert Views(view, listing, rows)[k] == view(id, rows[id]);
  }

  /** A listing of a table has one entry per row. */
  lemma {:induction false} ListingCount(listing: seq<int>, rows: map<int, Drink>)
    requires Lists(listing, rows)
    ensures |listing| == |rows|
  {
    if listing == [] {
      assert forall id :: id !in rows;
      assert rows.Keys == {};
    } else {
      var id, rest := listing[0], listing[1..];
      var others := rows - {id};
      assert id in rows && others.Keys == rows.Keys - {id};
      assert forall k :: 0 <= k < |rest| ==> rest[k] == listing[k + 1];
      assert Lists(rest, others);
      ListingCount(rest, others);
      assert |others.Keys| == |rows.Keys| - 1;
    }
  }

  /** Whatever rows the table holds, the database can list them. */
  lemma {:induction false} ListingExists(rows: map<int, Drink>)
    ensures exists listing :: Lists(listing, rows)
    decreases |rows|
  {
    if rows.Keys == {} {
      assert Lists([], rows);
    } else {
      HasMember(rows.Keys);
      var id :| id in rows.Keys;
      var rest := rows - {id};
      assert |rest| < |rows| by { assert rest.Keys == rows.Keys - {id}; }
      ListingExists(rest);
      var listing :| Lists(listing, rest);
      var longer := listing + [id];
      assert forall x :: x in longer <==> x in listing || x == id;
      assert Lists(longer, rows);
    }
  }

  /**
   * A non-empty set of ids has a member. Only a witness for the choices in
   * `ListingExists` and `UpperBound`, not a property of the table.
   */
  lemma HasMember(ids: set<int>)
    requires ids != {}
    ensures exists id :: id in ids
  {
    if forall id :: id !in ids {
      assert false;
    }
  }

  /** An integer above every id in `ids`. */
  ghost function UpperBound(ids: set<int>): (b: int)
    ensures forall id :: id in ids ==> id < b
    decreases ids
  {
    if ids == {} then 0
    else
      HasMember(ids);
      var id :| id in ids;
      var b := UpperBound(ids - {id});
      assert forall x :: x in ids ==> x == id || x in ids - {id};
      if id < b then b else id + 1
  }

  /** Whatever rows the table holds, an insert can be given an id not yet in use. */
  lemma FreshIdExists(rows: map<int, Drink>)
    ensures exists id :: id !in rows
  {
    var b := UpperBound(rows.Keys);
    assert b !in rows;
  }
}

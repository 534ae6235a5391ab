/** The entries of the pipe: rows of a message table that also carry bookkeeping fields. */
module MsgEntry {
  import opened Wrappers

  const SCHEMA_FIELD := "_s"
  const TABLE_FIELD := "_t"
  const PUBLISH_ERR_FIELD := "_e"

  // A Go error.  NoErr is the package's placeholder that stands for nil inside an entry.
  datatype GoError = NoErr | Err(text: string)

  datatype Field = Number(n: nat) | Text(s: string) | ErrorValue(err: GoError)

  // The columns of a message table.
  const ID_FIELD := "id"
  const SUBJECT_FIELD := "subject"
  const DATA_FIELD := "data"

  function WithNames(fields: map<string, Field>, schema: string, table: string): map<string, Field> {
    fields[SCHEMA_FIELD := Text(schema)][TABLE_FIELD := Text(table)]
  }

  function WithPublishErr(fields: map<string, Field>, err: Option<GoError>): map<string, Field> {
    fields[PUBLISH_ERR_FIELD := ErrorValue(if err.None? then NoErr else err.value)]
  }

  // The recorded result; the type assertion panics if there is none.
  function PublishErr(fields: map<string, Field>): Option<GoError>
    requires PUBLISH_ERR_FIELD in fields && fields[PUBLISH_ERR_FIELD].ErrorValue?
  {
    var err := fields[PUBLISH_ERR_FIELD].err;
    if err == NoErr then None else Some(err)
  }

  predicate IsColumn(name: string) {
    name == ID_FIELD || name == SUBJECT_FIELD || name == DATA_FIELD
  }

  /** An entry carries its row and its result all the way: after the names were added and the result of the publication
      recorded, the table it came from and its columns are still what they were, and the result is read back as it was,
      exactly if it is not the package's own placeholder. */
  lemma EntryCarriesRowAndResult(row: map<string, Field>, schema: string, table: string, err: Option<GoError>)
    ensures var fields := WithPublishErr(WithNames(row, schema, table), err);
      && (forall name :: IsColumn(name) && name in row ==> name in fields && fields[name] == row[name])
      && SCHEMA_FIELD in fields && fields[SCHEMA_FIELD] == Text(schema)
      && TABLE_FIELD in fields && fields[TABLE_FIELD] == Text(table)
      && (PublishErr(fields) == err <==> err != Some(NoErr))
  {
    assert SCHEMA_FIELD[1] != TABLE_FIELD[1] && SCHEMA_FIELD[1] != PUBLISH_ERR_FIELD[1] && TABLE_FIELD[1] != PUBLISH_ERR_FIELD[1];
  }

  class Entry {
    var fields: map<string, Field>

    constructor (row: map<string, Field>)
      ensures fields == row
    {
      fields := row;
    }

    // newMsgEntry writes into the row it is given.
    method AddNames(schema: string, table: string)
      modifies this
      ensures fields == WithNames(old(fields), schema, table)
    {
      fields := fields[SCHEMA_FIELD := Text(schema)];
      fields := fields[TABLE_FIELD := Text(table)];
    }

    method SetPublishErr(err: Option<GoError>)
      modifies this
      ensures fields == WithPublishErr(old(fields), err)
    {
      var e := NoErr;
      if err.Some? { e := err.value; }
      fields := fields[PUBLISH_ERR_FIELD := ErrorValue(e)];
    }

    method GetPublishErr() returns (err: Option<GoError>)
      requires PUBLISH_ERR_FIELD in fields && fields[PUBLISH_ERR_FIELD].ErrorValue?
      ensures err == PublishErr(fields)
    {
      var e := fields[PUBLISH_ERR_FIELD].err;
      if e == NoErr { return None; }
      return Some(e);
    }
  }
}

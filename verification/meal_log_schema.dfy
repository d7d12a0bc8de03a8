/**
 * The meal-log request body shared by both log-meal handlers, the document each of them stores,
 * and the one-log-per-(user, date) property the guarded handler keeps.
 */
module MealLogSchema {
  import opened Wrappers
  import opened Json
  import opened Ids
  import opened Documents

  /** `MealLogRequest`: the three meals are optional strings. */
  datatype MealLogRequest = MealLogRequest(userId: string, date: string,
                                           breakfast: Option<string>, lunch: Option<string>, dinner: Option<string>)

  /** A request meal as stored: its text, or null when it was not given. */
  function MealJson(meal: Option<string>): Json
  {
    if meal.Some? then JStr(meal.value) else JNull
  }

  /** The document both handlers insert for `data` under the key `key`. */
  function StoredLog(key: Key, data: MealLogRequest): (doc: MealLogDoc)
    ensures doc.userId == key && doc.date == data.date
    ensures doc.breakfast == Some(MealJson(data.breakfast)) && doc.lunch == Some(MealJson(data.lunch))
    ensures doc.dinner == Some(MealJson(data.dinner))
  {
    MealLogDoc(key, data.date, Some(MealJson(data.breakfast)), Some(MealJson(data.lunch)), Some(MealJson(data.dinner)))
  }

  /** The `{"user_id": key, "date": date}` query. */
  function LogFor(key: Key, date: string): MealLogDoc -> bool
  {
    (l: MealLogDoc) => l.userId == key && l.date == date
  }

  /** No two logs share a user and a date. */
  predicate OnePerDay(docs: seq<MealLogDoc>)
  {
    forall i, j :: 0 <= i < j < |docs| ==> !(docs[i].userId == docs[j].userId && docs[i].date == docs[j].date)
  }

  /** A log for a (user, date) pair nobody has logged yet keeps the collection at one per day. */
  lemma {:induction false} InsertNewDayKeepsOnePerDay(docs: seq<MealLogDoc>, doc: MealLogDoc)
    requires OnePerDay(docs)
    requires FindFirst(docs, LogFor(doc.userId, doc.date)) == |docs|
    ensures OnePerDay(docs + [doc])
  {
    var all := docs + [doc];
    forall i, j | 0 <= i < j < |all|
      ensures !(all[i].userId == all[j].userId && all[i].date == all[j].date)
    {
      if j == |docs| {
        assert !LogFor(doc.userId, doc.date)(docs[i]);
      }
    }
  }

  /** The same request stored twice gives two logs for one (user, date). */
  lemma {:induction false} RepeatedInsertBreaksOnePerDay(docs: seq<MealLogDoc>, key: Key, data: MealLogRequest)
    ensures !OnePerDay(docs + [StoredLog(key, data)] + [StoredLog(key, data)])
  {
    var all := docs + [StoredLog(key, data)] + [StoredLog(key, data)];
    assert all[|docs|] == all[|docs| + 1];
  }
}

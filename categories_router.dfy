/** The category handlers of routers/categories.js: create (with the
    parent lookup), update, get by id and delete. */
module CategoriesRouter {
  import opened Common
  import opened Numbers
  import opened Tables

  /** The body of POST /; `parentCategory` is None when it is absent or
      empty (falsy). */
  datatype CategoryRequest = CategoryRequest(name: string, icon: string, color: string,
                                             parentCategory: Option<IdParam>)

  /** The table and the id counter after a request, with the reply. */
  datatype Creation = Creation(reply: Reply, categories: map<Id, Category>, nextId: Id)

  const DefaultIcon := "default_icon"
  const DefaultColor := "default-color,"
  const Created := "Category created successfully"
  /** The reply when the default parent cannot be saved. */
  const ParentNotCreated := "Parent category not found and unable to create new parent category"
  /** The message of the error a rejected save raises. */
  const SaveRejected := "Category validation failed"
  /** The error `findById` raises for text that is not an ObjectId. */
  const CastError := "Cast to ObjectId failed"
  /** The error the misspelt identifier on line 53 raises. */
  const MisspeltParent := "parentCatergory is not defined"
  /** The error the undefined `category` on line 95 raises. */
  const UndefinedCategory := "category is not defined"

  /** The text of a requested id, as the request carried it. An ObjectId
      is rendered by its number. */
  function IdText(p: IdParam): string {
    match p
    case ObjectId(id) => Decimal(id)
    case NotAnId(text) => text
  }

  /** The name given to a default parent reads back as the requested id. */
  lemma IdTextReadsBack(id: Id)
    ensures ParseInt(IdText(ObjectId(id))) == Some(id)
  {
    ParseIntReadsDecimal(id);
  }

  /** The category the request describes, under the given parent. */
  function Child(req: CategoryRequest, parent: Option<Id>): Category {
    Category(req.name, req.icon, req.color, parent)
  }

  /** The parent created for a requested id that names no category. */
  function DefaultParent(requested: IdParam): (c: Category)
    ensures c.icon == DefaultIcon && c.color == DefaultColor && c.parentCategory.None?
  {
    Category(IdText(requested), DefaultIcon, DefaultColor, None)
  }

  /** The last step of POST /: save the child under the next id when the
      schema accepts it (201), otherwise the save's error (500). */
  function SaveChild(categories: map<Id, Category>, nextId: Id, req: CategoryRequest,
                     parent: Option<Id>, accepts: Category -> bool): (c: Creation)
    ensures c.reply.code == 201 <==> accepts(Child(req, parent))
    ensures c.reply.code == 201 ==>
              c.categories == categories[nextId := Child(req, parent)] && c.nextId == nextId + 1
    ensures c.reply.code != 201 ==>
              c == Creation(Reply(500, SaveRejected), categories, nextId)
  {
    var child := Child(req, parent);
    if accepts(child) then Creation(Reply(201, Created), categories[nextId := child], nextId + 1)
    else Creation(Reply(500, SaveRejected), categories, nextId)
  }

  /** The request names, by id, a parent that no category has. */
  predicate ParentMissing(categories: map<Id, Category>, req: CategoryRequest) {
    req.parentCategory.Some? && req.parentCategory.value.ObjectId? && req.parentCategory.value.id !in categories
  }

  /** POST / as written. No parent requested: the child is saved with no
      parent. A requested parent that exists: the child is saved under it.
      Text that is not an id: the lookup throws outside the try block
      (500). An id that names no category: building the default parent
      reads the undefined identifier `parentCatergory`, which throws (500)
      before anything is saved. */
  function CreateAsWritten(categories: map<Id, Category>, nextId: Id, req: CategoryRequest,
                           accepts: Category -> bool): (c: Creation)
    ensures req.parentCategory.None? ==> c == SaveChild(categories, nextId, req, None, accepts)
    ensures req.parentCategory.Some? && req.parentCategory.value.ObjectId?
            && req.parentCategory.value.id in categories ==>
              c == SaveChild(categories, nextId, req, Some(req.parentCategory.value.id), accepts)
    ensures c.reply.code != 201 ==> c.categories == categories && c.nextId == nextId
    ensures ParentMissing(categories, req) ==>
              c == Creation(Reply(500, MisspeltParent), categories, nextId)
  {
    match req.parentCategory
    case None => SaveChild(categories, nextId, req, None, accepts)
    case Some(NotAnId(_)) => Creation(Reply(500, CastError), categories, nextId)
    case Some(ObjectId(id)) =>
      if id in categories then SaveChild(categories, nextId, req, Some(id), accepts)
      else Creation(Reply(500, MisspeltParent), categories, nextId)
  }

  /** POST / as evidently intended: an id that names no category makes a
      default parent named after the requested id; if that parent cannot
      be saved the reply is 400 and nothing is written, otherwise the
      child is saved under it. The other cases are as written. On success
      no stored category changes, the child is the last one added, and
      the parent of every category added is in the table. */
  function CreateCorrected(categories: map<Id, Category>, nextId: Id, req: CategoryRequest,
                           accepts: Category -> bool): (c: Creation)
    ensures ParentMissing(categories, req) ==>
              var parent := DefaultParent(req.parentCategory.value);
              var child := Child(req, Some(nextId));
              if !accepts(parent) then
                c == Creation(Reply(400, ParentNotCreated), categories, nextId)
              else if accepts(child) then
                c == Creation(Reply(201, Created), categories[nextId := parent][nextId + 1 := child], nextId + 2)
              else
                c == Creation(Reply(500, SaveRejected), categories[nextId := parent], nextId + 1)
  {
    match req.parentCategory
    case None => SaveChild(categories, nextId, req, None, accepts)
    case Some(NotAnId(_)) => Creation(Reply(500, CastError), categories, nextId)
    case Some(ObjectId(id)) =>
      if id in categories then SaveChild(categories, nextId, req, Some(id), accepts)
      else
        var parent := DefaultParent(ObjectId(id));
        if !accepts(parent) then Creation(Reply(400, ParentNotCreated), categories, nextId)
        else SaveChild(categories[nextId := parent], nextId + 1, req, Some(nextId), accepts)
  }

  /** A successful POST / changes no stored category, adds categories
      only under the ids it was handed, stores the requested child last,
      and every parent it refers to is in the table. */
  ghost predicate AddedConsistently(categories: map<Id, Category>, nextId: Id,
                                    req: CategoryRequest, c: Creation)
  {
    && nextId < c.nextId
    && (forall id :: id in categories ==> id in c.categories && c.categories[id] == categories[id])
    && (forall id :: id in c.categories ==> id in categories || nextId <= id < c.nextId)
    && c.nextId - 1 in c.categories
    && c.categories[c.nextId - 1] == Child(req, c.categories[c.nextId - 1].parentCategory)
    && (forall id :: id in c.categories && id !in categories && c.categories[id].parentCategory.Some? ==>
          c.categories[id].parentCategory.value in c.categories)
  }

  /** As written, a created category's parent is one that already existed. */
  lemma AsWrittenAddsConsistently(categories: map<Id, Category>, nextId: Id, req: CategoryRequest,
                                  accepts: Category -> bool)
    requires KeysBelow(categories, nextId)
    ensures var c := CreateAsWritten(categories, nextId, req, accepts);
      c.reply.code == 201 ==> AddedConsistently(categories, nextId, req, c) && c.nextId == nextId + 1
  {
  }

  /** As intended, a created category's parent exists too, whether it was
      found or created on the way. */
  lemma CorrectedAddsConsistently(categories: map<Id, Category>, nextId: Id, req: CategoryRequest,
                                  accepts: Category -> bool)
    requires KeysBelow(categories, nextId)
    ensures var c := CreateCorrected(categories, nextId, req, accepts);
      c.reply.code == 201 ==> AddedConsistently(categories, nextId, req, c) && c.nextId <= nextId + 2
  {
    var c := CreateCorrected(categories, nextId, req, accepts);
    if c.reply.code == 201 && ParentMissing(categories, req) {
      var parent := DefaultParent(req.parentCategory.value);
      assert c.categories == categories[nextId := parent][nextId + 1 := Child(req, Some(nextId))];
    }
  }

  /** Without a requested parent exactly one category is added, with no
      parent; with a requested parent that exists, exactly one is added,
      under that parent. */
  lemma OneCategoryWhenParentKnown(categories: map<Id, Category>, nextId: Id, req: CategoryRequest,
                                   accepts: Category -> bool)
    requires !ParentMissing(categories, req) && !(req.parentCategory.Some? && req.parentCategory.value.NotAnId?)
    ensures var c := CreateCorrected(categories, nextId, req, accepts);
      var parent := if req.parentCategory.Some? then Some(req.parentCategory.value.id) else None;
      c.reply.code == 201 ==> c.categories == categories[nextId := Child(req, parent)]
  {
  }

  /** The two differ exactly on a requested id that names no category:
      with an empty table, a request for parent 7 and a schema that
      accepts everything, the code as written answers 500 and saves
      nothing, while the intended code saves the default parent and the
      child under it. */
  lemma MissingParentCounterexample()
    ensures var req := CategoryRequest("Shoes", "shoe", "red", Some(ObjectId(7)));
      var accepts := (c: Category) => true;
      && CreateAsWritten(map[], 0, req, accepts) == Creation(Reply(500, MisspeltParent), map[], 0)
      && CreateCorrected(map[], 0, req, accepts)
         == Creation(Reply(201, Created),
                     map[0 := DefaultParent(ObjectId(7)), 1 := Category("Shoes", "shoe", "red", Some(0))], 2)
  {
    var req := CategoryRequest("Shoes", "shoe", "red", Some(ObjectId(7)));
    var accepts := (c: Category) => true;
    var c := CreateCorrected(map[], 0, req, accepts);
    assert map[0 := DefaultParent(ObjectId(7))][1 := Category("Shoes", "shoe", "red", Some(0))]
           == map[0 := DefaultParent(ObjectId(7)), 1 := Category("Shoes", "shoe", "red", Some(0))];
  }

  /** The two agree on every request but one whose parent id names no
      category. */
  lemma CorrectionOnlyTouchesMissingParent(categories: map<Id, Category>, nextId: Id,
                                           req: CategoryRequest, accepts: Category -> bool)
    requires !ParentMissing(categories, req)
    ensures CreateCorrected(categories, nextId, req, accepts) == CreateAsWritten(categories, nextId, req, accepts)
  {
  }

  /** Saves the child as SaveChild describes. */
  method StoreChild(db: Database, req: CategoryRequest, parent: Option<Id>, accepts: Category -> bool)
    returns (reply: Reply)
    requires db.Valid()
    modifies db`categories, db`nextId
    ensures db.Valid()
    ensures Creation(reply, db.categories, db.nextId)
            == SaveChild(old(db.categories), old(db.nextId), req, parent, accepts)
  {
    var child := Child(req, parent);
    if !accepts(child) {
      return Reply(500, SaveRejected);
    }
    var id := db.IssueId();
    db.PutCategory(id, child);
    reply := Reply(201, Created);
  }

  /** POST / as written (see CreateAsWritten). */
  method CreateCategory(db: Database, req: CategoryRequest, accepts: Category -> bool) returns (reply: Reply)
    requires db.Valid()
    modifies db`categories, db`nextId
    ensures db.Valid()
    ensures Creation(reply, db.categories, db.nextId)
            == CreateAsWritten(old(db.categories), old(db.nextId), req, accepts)
  {
    var parent: Option<Id> := None;
    if req.parentCategory.Some? {
      if req.parentCategory.value.NotAnId? {
        return Reply(500, CastError);
      }
      var id := req.parentCategory.value.id;
      if id !in db.categories {
        return Reply(500, MisspeltParent);
      }
      parent := Some(id);
    }
    reply := StoreChild(db, req, parent, accepts);
  }

  /** POST / as evidently intended (see CreateCorrected). */
  method CreateCategoryWithDefaultParent(db: Database, req: CategoryRequest, accepts: Category -> bool)
    returns (reply: Reply)
    requires db.Valid()
    modifies db`categories, db`nextId
    ensures db.Valid()
    ensures Creation(reply, db.categories, db.nextId)
            == CreateCorrected(old(db.categories), old(db.nextId), req, accepts)
  {
    var parent: Option<Id> := None;
    if req.parentCategory.Some? {
      if req.parentCategory.value.NotAnId? {
        return Reply(500, CastError);
      }
      var id := req.parentCategory.value.id;
      if id in db.categories {
        parent := Some(id);
      } else {
        var fallback := DefaultParent(req.parentCategory.value);
        if !accepts(fallback) {
          return Reply(400, ParentNotCreated);
        }
        var parentId := db.IssueId();
        db.PutCategory(parentId, fallback);
        parent := Some(parentId);
      }
    }
    reply := StoreChild(db, req, parent, accepts);
  }

  // ---------------------------------------------------------------------
  // PUT /:id, GET /:id, DELETE /:id

  /** What PUT /:id decides. The update document is built first, and an
      empty icon falls back to the undefined `category`, which throws
      (500). Then a malformed id fails the cast (500) and an absent one is
      404. Otherwise name and color are replaced when given and the icon
      always; validators do not run on this update. */
  function UpdateOutcome(categories: map<Id, Category>, target: IdParam,
                         name: Option<string>, icon: string, color: Option<string>): (r: Result<(Id, Category)>)
    ensures icon == "" ==> r == Fail(Reply(500, UndefinedCategory))
    ensures icon != "" && target.NotAnId? ==> r == Fail(Reply(500, CastError))
    ensures icon != "" && target.ObjectId? && target.id !in categories ==>
              r == Fail(Reply(404, "Category not found"))
    ensures r.Ok? <==> icon != "" && target.ObjectId? && target.id in categories
    ensures r.Ok? ==>
              var before := categories[target.id];
              && r.value.0 == target.id
              && r.value.1.icon == icon
              && r.value.1.parentCategory == before.parentCategory
              && (name.Some? ==> r.value.1.name == name.value)
              && (name.None? ==> r.value.1.name == before.name)
              && (color.Some? ==> r.value.1.color == color.value)
              && (color.None? ==> r.value.1.color == before.color)
  {
    if icon == "" then Fail(Reply(500, UndefinedCategory))
    else if target.NotAnId? then Fail(Reply(500, CastError))
    else if target.id !in categories then Fail(Reply(404, "Category not found"))
    else
      var before := categories[target.id];
      Ok((target.id, before.(name := UpdatedField(name, before.name), icon := icon,
                             color := UpdatedField(color, before.color))))
  }

  /** PUT /:id: replaces the one category UpdateOutcome accepts. */
  method UpdateCategory(db: Database, target: IdParam, name: Option<string>, icon: string, color: Option<string>)
    returns (reply: Reply)
    requires db.Valid()
    modifies db`categories
    ensures db.Valid()
    ensures var r := UpdateOutcome(old(db.categories), target, name, icon, color);
      && (r.Fail? ==> reply == r.reply && db.categories == old(db.categories))
      && (r.Ok? ==> reply == Reply(200, "") && db.categories == old(db.categories)[r.value.0 := r.value.1])
  {
    var outcome := UpdateOutcome(db.categories, target, name, icon, color);
    if outcome.Fail? {
      return outcome.reply;
    }
    db.PutCategory(outcome.value.0, outcome.value.1);
    reply := Reply(200, "");
  }

  /** GET /:id: the category, 404 for an absent id, 500 for text that is
      not an id. */
  function GetCategory(categories: map<Id, Category>, target: IdParam): (r: Result<Category>)
    ensures r.Ok? <==> target.ObjectId? && target.id in categories
    ensures r.Ok? ==> r.value == categories[target.id]
    ensures target.ObjectId? && target.id !in categories ==>
              r == Fail(Reply(404, "Category with given ID not found"))
    ensures target.NotAnId? ==> r == Fail(Reply(500, CastError))
  {
    if target.NotAnId? then Fail(Reply(500, CastError))
    else if target.id !in categories then Fail(Reply(404, "Category with given ID not found"))
    else Ok(categories[target.id])
  }

  /** DELETE /:id: removes exactly the requested category. */
  method DeleteCategory(db: Database, target: IdParam) returns (reply: Reply)
    requires db.Valid()
    modifies db`categories
    ensures db.Valid()
    ensures target.NotAnId? ==> reply == Reply(500, CastError) && db.categories == old(db.categories)
    ensures target.ObjectId? && target.id !in old(db.categories) ==>
              reply == Reply(404, "Category not found!") && db.categories == old(db.categories)
    ensures target.ObjectId? && target.id in old(db.categories) ==>
              reply == Reply(200, "Category deleted") && db.categories == old(db.categories) - {target.id}
  {
    if target.NotAnId? {
      return Reply(500, CastError);
    }
    if target.id !in db.categories {
      return Reply(404, "Category not found!");
    }
    db.RemoveCategory(target.id);
    reply := Reply(200, "Category deleted");
  }
}

/** `retrieve_image_task`: the worker that gives a registration its picture. It clears the
    flag, then takes the picture from the `images/` cache, else from one image search,
    else the `images/404.jpg` placeholder, and saves the record.
    The directory listing and the crawler's download are inputs. */
module Tasks {
  import opened Wrappers
  import opened Schema
  import opened Receivers
  import opened Models

  const ImagesDir := "images/"
  const NotFoundImage := "images/404.jpg"

  /** The cache key: the car model with every space replaced by an underscore. */
  function CacheKey(carModel: string): (key: string)
    ensures |key| == |carModel| && ' ' !in key
    ensures forall i :: 0 <= i < |key| ==> key[i] == (if carModel[i] == ' ' then '_' else carModel[i])
  {
    seq(|carModel|, i requires 0 <= i < |carModel| => if carModel[i] == ' ' then '_' else carModel[i])
  }

  /** A file of `images/` matched by the pattern `<key>.*`. */
  predicate GlobHit(name: string, key: string)
  {
    |name| > |key| && name[..|key|] == key && name[|key|] == '.'
  }

  /** A path of the form `images/<key>.<anything>`. */
  predicate IsCachePath(path: string, key: string)
  {
    |path| >= |ImagesDir| && path[..|ImagesDir|] == ImagesDir && GlobHit(path[|ImagesDir|..], key)
  }

  /** `glob.glob("images/<key>.*")` over the listing of `images/`, in listing order. */
  function CacheMatches(listing: seq<string>, key: string): (hits: seq<string>)
    ensures |hits| <= |listing|
    ensures forall i :: 0 <= i < |hits| ==> IsCachePath(hits[i], key)
    ensures hits == [] <==> forall i :: 0 <= i < |listing| ==> !GlobHit(listing[i], key)
  {
    if listing == [] then []
    else
      var rest := CacheMatches(listing[1..], key);
      assert forall i :: 1 <= i < |listing| ==> listing[i] == listing[1..][i - 1];
      if GlobHit(listing[0], key) then
        assert (ImagesDir + listing[0])[|ImagesDir|..] == listing[0];
        [ImagesDir + listing[0]] + rest
      else rest
  }

  /** How the picture was found. */
  datatype Resolution =
    | Cached(path: string)      // the last cache match
    | Downloaded(name: string)  // the search's picture, stored under this name in `images/`
    | Missing                   // nothing found: the placeholder

  /** The decision the worker takes for a car model. */
  function Resolve(carModel: string, listing: seq<string>, crawled: Option<string>): (res: Resolution)
    ensures res.Cached? <==> CacheMatches(listing, CacheKey(carModel)) != []
    ensures res.Cached? ==> IsCachePath(res.path, CacheKey(carModel))
    ensures res.Cached? ==>
              var hits := CacheMatches(listing, CacheKey(carModel));
              res.path == hits[|hits| - 1]
    ensures res.Downloaded? <==> CacheMatches(listing, CacheKey(carModel)) == [] && crawled.Some?
    ensures res.Downloaded? ==> GlobHit(res.name, CacheKey(carModel)) && res.name == CacheKey(carModel) + ".jpg"
    ensures res.Missing? <==> CacheMatches(listing, CacheKey(carModel)) == [] && crawled.None?
  {
    var key := CacheKey(carModel);
    var hits := CacheMatches(listing, key);
    if hits != [] then Cached(hits[|hits| - 1])
    else if crawled.Some? then
      assert (key + ".jpg")[..|key|] == key;
      Downloaded(key + ".jpg")
    else Missing
  }

  /** The value the worker stores in `image`. */
  function ImageOf(res: Resolution): string
  {
    match res
    case Cached(path) => path
    case Downloaded(name) => ImagesDir + name
    case Missing => NotFoundImage
  }

  /** Whatever the cache and the search give, the worker stores a path inside `images/`:
      the fallback needs nothing and cannot fail. */
  lemma ImageIsInImagesDir(carModel: string, listing: seq<string>, crawled: Option<string>)
    ensures var image := ImageOf(Resolve(carModel, listing, crawled));
            |image| > |ImagesDir| && image[..|ImagesDir|] == ImagesDir
  {
    var res := Resolve(carModel, listing, crawled);
    if res.Downloaded? {
      assert (ImagesDir + res.name)[..|ImagesDir|] == ImagesDir;
    } else if res.Missing? {
      assert NotFoundImage[..|ImagesDir|] == ImagesDir;
    }
  }

  lemma {:induction false} CacheMatchesAppend(listing: seq<string>, name: string, key: string)
    ensures CacheMatches(listing + [name], key)
         == CacheMatches(listing, key) + (if GlobHit(name, key) then [ImagesDir + name] else [])
    decreases |listing|
  {
    if listing == [] {
      assert listing + [name] == [name];
    } else {
      assert (listing + [name])[1..] == listing[1..] + [name];
      CacheMatchesAppend(listing[1..], name, key);
    }
  }

  /** A downloaded picture is stored under the cache key, so resolving the same model
      again is a cache hit on it and the search is not asked again. */
  lemma DownloadThenHit(carModel: string, listing: seq<string>, crawled: Option<string>, later: Option<string>)
    requires Resolve(carModel, listing, crawled).Downloaded?
    ensures var name := Resolve(carModel, listing, crawled).name;
            Resolve(carModel, listing + [name], later) == Cached(ImageOf(Resolve(carModel, listing, crawled)))
  {
    var name := Resolve(carModel, listing, crawled).name;
    CacheMatchesAppend(listing, name, CacheKey(carModel));
  }

  /** On a cache hit the crawler's answer plays no part. */
  lemma CacheHitIgnoresCrawler(carModel: string, listing: seq<string>, crawled: Option<string>, other: Option<string>)
    requires CacheMatches(listing, CacheKey(carModel)) != []
    ensures Resolve(carModel, listing, crawled) == Resolve(carModel, listing, other)
  {
  }

  /** The cache test: model "404" finds `images/404.jpg`; "super car" finds nothing, and
      with nothing downloaded either it falls back to the placeholder. */
  lemma CacheExamples()
    ensures Resolve("404", ["404.jpg"], None) == Cached("images/404.jpg")
    ensures CacheMatches(["404.jpg"], CacheKey("super car")) == []
    ensures ImageOf(Resolve("super car", ["404.jpg"], None)) == NotFoundImage
  {
    assert CacheKey("404") == "404";
    assert GlobHit("404.jpg", "404");
    assert ["404.jpg"][1..] == [];
    assert CacheMatches([], "404") == [];
    assert ImagesDir + "404.jpg" == "images/404.jpg";
    assert CacheMatches(["404.jpg"], "404") == ["images/404.jpg"];
    assert !GlobHit("404.jpg", CacheKey("super car"));
  }

  /** The record the worker saves: the picture set and the flag cleared, every other
      field as read. Such a record is already normalised, and saving it sends no task. */
  function Worked(reg: Registration, listing: seq<string>, crawled: Option<string>): (w: Registration)
    ensures !w.retrieveImage && Triggered(w) == []
    ensures w.plate == reg.plate && w.owner == reg.owner && w.carModel == reg.carModel
    ensures w.image == ImageOf(Resolve(reg.carModel, listing, crawled))
    ensures Normalized(reg) ==> Normalize(w) == w
  {
    reg.(image := ImageOf(Resolve(reg.carModel, listing, crawled)), retrieveImage := false)
  }

  /** Two tasks for the same record, the second running after the first one's download
      landed in `images/`, leave the record in the same state: the later task hits the
      cache on the picture the earlier one stored, whatever the search would answer. After
      a fallback to the placeholder this holds only while the search still finds nothing. */
  lemma {:induction false} RepeatedTaskSettles(reg: Registration, listing: seq<string>, crawled: Option<string>, later: Option<string>)
    requires Resolve(reg.carModel, listing, crawled).Missing? ==> later.None?
    ensures var res := Resolve(reg.carModel, listing, crawled);
            var after := if res.Downloaded? then listing + [res.name] else listing;
            Worked(Worked(reg, listing, crawled), after, later) == Worked(reg, listing, crawled)
  {
    var res := Resolve(reg.carModel, listing, crawled);
    if res.Downloaded? {
      DownloadThenHit(reg.carModel, listing, crawled, later);
    }
  }

  datatype TaskError = DoesNotExist

  /** `retrieve_image_task(plate)`. An unknown plate raises and nothing changes. Otherwise
      the record's `image` becomes the resolved picture and `retrieve_image` becomes False
      on every branch, nothing else in the table changes, and the save sends no new task.
      The result names the file written into `images/`, if any. */
  method RetrieveImageTask(db: Registry, plate: string, listing: seq<string>, crawled: Option<string>)
    returns (r: Result<Option<string>, TaskError>)
    requires db.Valid()
    modifies db, db.queue
    ensures db.Valid()
    ensures db.queue.tasks == old(db.queue.tasks) && db.clock == old(db.clock)
    ensures FindPlate(old(db.rows), plate).None? ==> r == Failure(DoesNotExist) && db.rows == old(db.rows)
    ensures FindPlate(old(db.rows), plate).Some? ==>
              var k := FindPlate(old(db.rows), plate).value;
              var row := old(db.rows)[k];
              var res := Resolve(row.reg.carModel, listing, crawled);
              && r == Success(if res.Downloaded? then Some(res.name) else None)
              && db.rows == old(db.rows)[k := row.(reg := Worked(row.reg, listing, crawled))]
  {
    var found := FindPlate(db.rows, plate);
    if found.None? {
      return Failure(DoesNotExist);
    }
    var row := db.rows[found.value];
    var instance := row.reg.(retrieveImage := false);
    var key := CacheKey(instance.carModel);
    var cachedImage := CacheMatches(listing, key);
    var written: Option<string> := None;
    if |cachedImage| > 0 {
      // the last match, as `pop()` takes it
      instance := instance.(image := cachedImage[|cachedImage| - 1]);
    } else if crawled.Some? {
      written := Some(key + ".jpg");
      instance := instance.(image := ImagesDir + written.value);
    } else {
      instance := instance.(image := NotFoundImage);
    }
    assert Normalize(instance) == instance;
    FindPlateDecidesConflict(db.rows, db.clock, instance.plate, found.value);
    var saved := db.Save(Some(row.id), instance);
    r := Success(written);
  }
}

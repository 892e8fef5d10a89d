/** `FileManager` with each method as one step of its caller; what reading the disk returns, and what other
    threads put into the cache while a caller has dropped the lock for it, are parameters. */
module FileManagers {
  type Bytes = string
  type Name = string

  /** The cache and the files agree. */
  ghost predicate Agree(cache: map<Name, Bytes>, disk: map<Name, Bytes>) {
    forall name :: name in cache ==> name in disk && cache[name] == disk[name]
  }

  function Content(disk: map<Name, Bytes>, name: Name): Bytes {
    if name in disk then disk[name] else ""
  }

  class FileManager {
    const hash: Bytes -> Name
    var disk: map<Name, Bytes>
    var cache: map<Name, Bytes>

    ghost predicate Valid()
      reads this
    {
      Agree(cache, disk)
    }

    constructor (hash: Bytes -> Name, disk: map<Name, Bytes>)
      ensures Valid() && this.hash == hash && this.disk == disk && cache == map[]
    {
      this.hash, this.disk, cache := hash, disk, map[];
    }

    /** `opens` says whether the output stream can be opened.  A name is returned unless it cannot, and a
        file that exists already is left as it is. */
    method SaveFile(file: Bytes, opens: bool) returns (name: Name)
      modifies this
      ensures old(Valid()) ==> Valid()
      ensures name == if hash(file) in old(disk) || opens then hash(file) else ""
      ensures disk == if hash(file) in old(disk) || !opens then old(disk) else old(disk)[hash(file) := file]
      ensures cache == if hash(file) in old(disk) || !opens then old(cache) else old(cache)[hash(file) := file]
    {
      name := hash(file);
      if name in disk {
        return;
      }
      if !opens {
        return "";
      }
      disk := disk[name := file];
      cache := cache[name := file];
    }

    /** What the cache has, else what others have cached during the look at the disk, else what the disk had;
        empty if there is no file.  That is the file if all of them are true to it. */
    method GetFile(name: Name, read: Bytes, meanwhile: map<Name, Bytes>) returns (res: Bytes)
      modifies this`cache
      ensures name in old(cache) || name !in disk ==> cache == old(cache) && res == Content(cache, name)
      ensures name !in old(cache) && name in disk ==>
                && res == (if name in meanwhile then meanwhile[name] else read)
                && cache == old(cache) + map[name := read] + meanwhile
      ensures old(Valid()) && Agree(meanwhile, disk) && read == Content(disk, name) ==>
                Valid() && res == Content(disk, name)
    {
      if name in cache {
        return cache[name];
      }
      if name !in disk {
        return "";
      }
      res := read;
      cache := cache + meanwhile;
      if name in cache {
        return cache[name];
      }
      cache := cache[name := res];
    }

    method AddFileToCache(name: Name, read: Bytes, meanwhile: map<Name, Bytes>) returns (ok: bool)
      modifies this`cache
      ensures name in old(cache) || name !in disk ==> cache == old(cache)
      ensures name !in old(cache) && name in disk ==> cache == old(cache) + map[name := read] + meanwhile
      ensures ok <==> name in old(cache) || name in disk
      ensures old(Valid()) && Agree(meanwhile, disk) && read == Content(disk, name) ==> Valid()
    {
      if name in cache {
        return true;
      }
      if name !in disk {
        return false;
      }
      var content := read;
      cache := cache + meanwhile;
      if name !in cache {
        cache := cache[name := content];
      }
      return true;
    }
  }

  /** Save, then get, with nobody else about: the same bytes, exactly if the name was new or already stood for
      them. */
  method SaveThenGet(files: FileManager, file: Bytes) returns (res: Bytes)
    requires files.Valid()
    modifies files
    ensures files.Valid()
    ensures res == file <==>
            files.hash(file) !in old(files.disk) || old(files.disk)[files.hash(file)] == file
  {
    var name := files.SaveFile(file, true);
    res := files.GetFile(name, files.disk[name], map[]);
  }
}

// Keyword-driven table selection over the Sakila schema.

module TableSelector {
  import opened Common

  /** Keyword to the tables it suggests. */
  type Keywords = map<string, set<string>>

  /** The keyword dictionary, section by section in the order of the
      source's literal, duplicates included. Map union keeps the value of
      its right operand, and a map display the last value given for a key,
      as a Python dict literal does: so "xếp hạng" and "xep hang" map to
      the statistics sets and not to {"film"}. */
  const KeywordToTables: Keywords :=
    FilmKeywords
    + ActorKeywords
    + CategoryKeywords
    + CustomerKeywords
    + RentalKeywords
    + PaymentKeywords
    + StoreKeywords
    + StaffKeywords
    + InventoryKeywords
    + LocationKeywords
    + LanguageKeywords
    + TimeKeywords
    + StatisticsKeywords

  const FilmKeywords: Keywords := map[
    "film" := {"film", "film_category", "film_actor"},
    "movie" := {"film", "film_category", "film_actor"},
    "title" := {"film"},
    "description" := {"film"},
    "length" := {"film"},
    "duration" := {"film"},
    "release" := {"film"},
    "rating" := {"film"},
    "phim" := {"film", "film_category", "film_actor"},
    "bộ phim" := {"film", "film_category", "film_actor"},
    "tiêu đề" := {"film"},
    "tên phim" := {"film"},
    "mô tả" := {"film"},
    "nội dung" := {"film"},
    "thời lượng" := {"film"},
    "độ dài" := {"film"},
    "năm phát hành" := {"film"},
    "năm sản xuất" := {"film"},
    "đánh giá" := {"film"},
    "xếp hạng" := {"film"},
    "bo phim" := {"film", "film_category", "film_actor"},
    "tieu de" := {"film"},
    "ten phim" := {"film"},
    "mo ta" := {"film"},
    "noi dung" := {"film"},
    "thoi luong" := {"film"},
    "do dai" := {"film"},
    "nam phat hanh" := {"film"},
    "nam san xuat" := {"film"},
    "danh gia" := {"film"},
    "xep hang" := {"film"}
  ]

  const ActorKeywords: Keywords := map[
    "actor" := {"actor", "film_actor"},
    "actress" := {"actor", "film_actor"},
    "cast" := {"actor", "film_actor"},
    "performer" := {"actor", "film_actor"},
    "diễn viên" := {"actor", "film_actor"},
    "nghệ sĩ" := {"actor", "film_actor"},
    "đóng phim" := {"actor", "film_actor", "film"},
    "vai diễn" := {"actor", "film_actor"},
    "tham gia" := {"actor", "film_actor"},
    "xuất hiện" := {"actor", "film_actor"},
    "dien vien" := {"actor", "film_actor"},
    "nghe si" := {"actor", "film_actor"},
    "dong phim" := {"actor", "film_actor", "film"},
    "vai dien" := {"actor", "film_actor"},
    "tham gia" := {"actor", "film_actor"},
    "xuat hien" := {"actor", "film_actor"}
  ]

  const CategoryKeywords: Keywords := map[
    "category" := {"category", "film_category"},
    "genre" := {"category", "film_category"},
    "type" := {"category", "film_category"},
    "thể loại" := {"category", "film_category"},
    "loại phim" := {"category", "film_category"},
    "danh mục" := {"category", "film_category"},
    "hành động" := {"category", "film_category"},
    "kinh dị" := {"category", "film_category"},
    "hài" := {"category", "film_category"},
    "tình cảm" := {"category", "film_category"},
    "hoạt hình" := {"category", "film_category"},
    "the loai" := {"category", "film_category"},
    "loai phim" := {"category", "film_category"},
    "danh muc" := {"category", "film_category"},
    "hanh dong" := {"category", "film_category"},
    "kinh di" := {"category", "film_category"},
    "tinh cam" := {"category", "film_category"},
    "hoat hinh" := {"category", "film_category"}
  ]

  const CustomerKeywords: Keywords := map[
    "customer" := {"customer", "rental", "payment"},
    "client" := {"customer", "rental", "payment"},
    "member" := {"customer"},
    "user" := {"customer"},
    "khách hàng" := {"customer", "rental", "payment"},
    "khách" := {"customer", "rental"},
    "người thuê" := {"customer", "rental"},
    "người dùng" := {"customer"},
    "thành viên" := {"customer"},
    "người mua" := {"customer", "payment"},
    "người mượn" := {"customer", "rental"},
    "khach hang" := {"customer", "rental", "payment"},
    "khach" := {"customer", "rental"},
    "nguoi thue" := {"customer", "rental"},
    "nguoi dung" := {"customer"},
    "thanh vien" := {"customer"},
    "nguoi mua" := {"customer", "payment"},
    "nguoi muon" := {"customer", "rental"}
  ]

  const RentalKeywords: Keywords := map[
    "rental" := {"rental", "inventory"},
    "rent" := {"rental", "inventory"},
    "borrow" := {"rental"},
    "loan" := {"rental"},
    "thuê" := {"rental", "inventory"},
    "cho thuê" := {"rental", "inventory"},
    "mượn" := {"rental"},
    "giao dịch thuê" := {"rental"},
    "lượt thuê" := {"rental"},
    "đơn thuê" := {"rental"},
    "trả" := {"rental"},
    "trả phim" := {"rental"},
    "thue" := {"rental", "inventory"},
    "cho thue" := {"rental", "inventory"},
    "muon" := {"rental"},
    "giao dich thue" := {"rental"},
    "luot thue" := {"rental"},
    "don thue" := {"rental"},
    "tra" := {"rental"},
    "tra phim" := {"rental"}
  ]

  const PaymentKeywords: Keywords := map[
    "payment" := {"payment"},
    "pay" := {"payment"},
    "revenue" := {"payment", "rental"},
    "income" := {"payment"},
    "money" := {"payment"},
    "amount" := {"payment"},
    "sales" := {"payment", "rental"},
    "thanh toán" := {"payment"},
    "trả tiền" := {"payment"},
    "tiền" := {"payment"},
    "doanh thu" := {"payment", "rental"},
    "thu nhập" := {"payment"},
    "số tiền" := {"payment"},
    "tổng tiền" := {"payment"},
    "chi phí" := {"payment"},
    "phí" := {"payment"},
    "hóa đơn" := {"payment"},
    "bán hàng" := {"payment", "rental"},
    "thanh toan" := {"payment"},
    "tra tien" := {"payment"},
    "tien" := {"payment"},
    "doanh thu" := {"payment", "rental"},
    "thu nhap" := {"payment"},
    "so tien" := {"payment"},
    "tong tien" := {"payment"},
    "chi phi" := {"payment"},
    "phi" := {"payment"},
    "hoa don" := {"payment"},
    "ban hang" := {"payment", "rental"}
  ]

  const StoreKeywords: Keywords := map[
    "store" := {"store", "staff", "inventory"},
    "shop" := {"store", "staff", "inventory"},
    "branch" := {"store"},
    "location" := {"store", "address"},
    "cửa hàng" := {"store", "staff", "inventory"},
    "chi nhánh" := {"store"},
    "địa điểm" := {"store", "address"},
    "điểm bán" := {"store"},
    "cơ sở" := {"store"},
    "cua hang" := {"store", "staff", "inventory"},
    "chi nhanh" := {"store"},
    "dia diem" := {"store", "address"},
    "diem ban" := {"store"},
    "co so" := {"store"}
  ]

  const StaffKeywords: Keywords := map[
    "staff" := {"staff"},
    "employee" := {"staff"},
    "worker" := {"staff"},
    "manager" := {"staff", "store"},
    "nhân viên" := {"staff"},
    "người làm" := {"staff"},
    "quản lý" := {"staff", "store"},
    "nhân sự" := {"staff"},
    "nhan vien" := {"staff"},
    "nguoi lam" := {"staff"},
    "quan ly" := {"staff", "store"},
    "nhan su" := {"staff"}
  ]

  const InventoryKeywords: Keywords := map[
    "inventory" := {"inventory", "store"},
    "stock" := {"inventory"},
    "available" := {"inventory"},
    "copy" := {"inventory"},
    "kho" := {"inventory", "store"},
    "tồn kho" := {"inventory"},
    "hàng tồn" := {"inventory"},
    "số lượng" := {"inventory"},
    "bản sao" := {"inventory"},
    "còn hàng" := {"inventory"},
    "có sẵn" := {"inventory"},
    "ton kho" := {"inventory"},
    "hang ton" := {"inventory"},
    "so luong" := {"inventory"},
    "ban sao" := {"inventory"},
    "con hang" := {"inventory"},
    "co san" := {"inventory"}
  ]

  const LocationKeywords: Keywords := map[
    "address" := {"address", "city", "country"},
    "city" := {"city", "address"},
    "country" := {"country", "city"},
    "district" := {"address"},
    "postal" := {"address"},
    "phone" := {"address", "customer"},
    "địa chỉ" := {"address", "city", "country"},
    "thành phố" := {"city", "address"},
    "quốc gia" := {"country", "city"},
    "nước" := {"country"},
    "quận" := {"address"},
    "huyện" := {"address"},
    "phường" := {"address"},
    "đường" := {"address"},
    "số điện thoại" := {"address", "customer"},
    "liên hệ" := {"address", "customer"},
    "dia chi" := {"address", "city", "country"},
    "thanh pho" := {"city", "address"},
    "quoc gia" := {"country", "city"},
    "nuoc" := {"country"},
    "quan" := {"address"},
    "huyen" := {"address"},
    "phuong" := {"address"},
    "duong" := {"address"},
    "so dien thoai" := {"address", "customer"},
    "lien he" := {"address", "customer"}
  ]

  const LanguageKeywords: Keywords := map[
    "language" := {"language", "film"},
    "ngôn ngữ" := {"language", "film"},
    "tiếng" := {"language", "film"},
    "phụ đề" := {"language", "film"},
    "lồng tiếng" := {"language", "film"},
    "ngon ngu" := {"language", "film"},
    "tieng" := {"language", "film"},
    "phu de" := {"language", "film"},
    "long tieng" := {"language", "film"}
  ]

  const TimeKeywords: Keywords := map[
    "ngày" := {"rental", "payment"},
    "tháng" := {"rental", "payment"},
    "năm" := {"rental", "payment", "film"},
    "tuần" := {"rental", "payment"},
    "hôm nay" := {"rental", "payment"},
    "hôm qua" := {"rental", "payment"},
    "gần đây" := {"rental", "payment"},
    "ngay" := {"rental", "payment"},
    "thang" := {"rental", "payment"},
    "nam" := {"rental", "payment", "film"},
    "tuan" := {"rental", "payment"},
    "hom nay" := {"rental", "payment"},
    "hom qua" := {"rental", "payment"},
    "gan day" := {"rental", "payment"}
  ]

  const StatisticsKeywords: Keywords := map[
    "thống kê" := {"film", "rental", "payment", "customer"},
    "báo cáo" := {"film", "rental", "payment", "customer"},
    "tổng" := {"payment", "rental"},
    "trung bình" := {"payment", "rental", "film"},
    "cao nhất" := {"payment", "rental", "film"},
    "thấp nhất" := {"payment", "rental", "film"},
    "nhiều nhất" := {"film", "actor", "customer", "rental"},
    "ít nhất" := {"film", "actor", "customer", "rental"},
    "top" := {"film", "actor", "customer", "rental", "payment"},
    "xếp hạng" := {"film", "actor", "customer"},
    "thong ke" := {"film", "rental", "payment", "customer"},
    "bao cao" := {"film", "rental", "payment", "customer"},
    "tong" := {"payment", "rental"},
    "trung binh" := {"payment", "rental", "film"},
    "cao nhat" := {"payment", "rental", "film"},
    "thap nhat" := {"payment", "rental", "film"},
    "nhieu nhat" := {"film", "actor", "customer", "rental"},
    "it nhat" := {"film", "actor", "customer", "rental"},
    "xep hang" := {"film", "actor", "customer"}
  ]

  /** Tables that are joined with a table. */
  const TableRelationships: map<string, set<string>> := map[
    "film" := {"language", "film_category", "film_actor", "inventory"},
    "actor" := {"film_actor"},
    "category" := {"film_category"},
    "customer" := {"address", "rental", "payment"},
    "rental" := {"inventory", "customer", "staff", "payment"},
    "payment" := {"rental", "customer", "staff"},
    "store" := {"address", "staff", "inventory"},
    "staff" := {"address", "store"},
    "inventory" := {"film", "store"},
    "address" := {"city"},
    "city" := {"country"},
    "film_actor" := {"film", "actor"},
    "film_category" := {"film", "category"}
  ]

  /** How important a table is; main tables rank higher. */
  const TablePriority: map<string, int> := map[
    "film" := 10,
    "actor" := 9,
    "customer" := 9,
    "rental" := 8,
    "payment" := 8,
    "category" := 7,
    "store" := 7,
    "staff" := 6,
    "inventory" := 5,
    "address" := 4,
    "city" := 3,
    "country" := 2,
    "language" := 2,
    "film_actor" := 1,
    "film_category" := 1
  ]

  /** The tables a table's foreign keys point to (`get_table_dependencies`). */
  const Dependencies: map<string, set<string>> := map[
    "film" := {"language"},
    "film_actor" := {"film", "actor"},
    "film_category" := {"film", "category"},
    "customer" := {"address"},
    "address" := {"city"},
    "city" := {"country"},
    "rental" := {"inventory", "customer", "staff"},
    "payment" := {"customer", "staff", "rental"},
    "inventory" := {"film", "store"},
    "store" := {"address"},
    "staff" := {"address", "store"}
  ]

  function Priority(t: string): int
  {
    if t in TablePriority then TablePriority[t] else 0
  }

  /** `table_scores.get(t, 0)`. */
  function GetScore(scores: map<string, int>, t: string): int
  {
    if t in scores then scores[t] else 0
  }

  function GetTableDependencies(t: string): (r: set<string>)
    ensures t in Dependencies ==> r == Dependencies[t]
    ensures t !in Dependencies ==> r == {}
  {
    if t in Dependencies then Dependencies[t] else {}
  }

  /** A rank that every foreign key strictly decreases. */
  function DependencyRank(t: string): nat
  {
    match t
    case "film_actor" => 2
    case "film_category" => 2
    case "film" => 1
    case "customer" => 3
    case "address" => 2
    case "city" => 1
    case "rental" => 5
    case "payment" => 6
    case "inventory" => 4
    case "store" => 3
    case "staff" => 4
    case _ => 0
  }

  /** The dependency graph is acyclic: a dependency always has a smaller
      rank, so no table depends on itself, directly or through others. */
  lemma DependenciesAcyclic(t: string, d: string)
    requires d in GetTableDependencies(t)
    ensures DependencyRank(d) < DependencyRank(t)
    ensures d != t
    ensures d in TablePriority
  {
    DependencyRankDrops(t, d);
    DependencyPrioritised(t, d);
  }

  lemma DependencyRankDrops(t: string, d: string)
    requires d in GetTableDependencies(t)
    ensures DependencyRank(d) < DependencyRank(t)
  {
    assert t in Dependencies;
    if t == "film" { assert d == "language"; }
    else if t == "film_actor" { assert d == "film" || d == "actor"; }
    else if t == "film_category" { assert d == "film" || d == "category"; }
    else if t == "customer" || t == "store" { assert d == "address"; }
    else if t == "address" { assert d == "city"; }
    else if t == "city" { assert d == "country"; }
    else if t == "rental" { assert d == "inventory" || d == "customer" || d == "staff"; }
    else if t == "payment" { assert d == "customer" || d == "staff" || d == "rental"; }
    else if t == "inventory" { assert d == "film" || d == "store"; }
    else { assert t == "staff"; assert d == "address" || d == "store"; }
  }

  lemma DependencyPrioritised(t: string, d: string)
    requires d in GetTableDependencies(t)
    ensures d in TablePriority
  {
    assert t in Dependencies;
    if t == "film" { assert d == "language"; }
    else if t == "film_actor" { assert d == "film" || d == "actor"; }
    else if t == "film_category" { assert d == "film" || d == "category"; }
    else if t == "customer" || t == "store" { assert d == "address"; }
    else if t == "address" { assert d == "city"; }
    else if t == "city" { assert d == "country"; }
    else if t == "rental" { assert d == "inventory" || d == "customer" || d == "staff"; }
    else if t == "payment" { assert d == "customer" || d == "staff" || d == "rental"; }
    else if t == "inventory" { assert d == "film" || d == "store"; }
    else { assert t == "staff"; assert d == "address" || d == "store"; }
  }

  // ---------------------------------------------------------------------------
  // Step 1: keyword matching
  // ---------------------------------------------------------------------------

  /** The keywords among `done` that occur in `ql` and name table `t`. */
  function HitsIn(kw: Keywords, done: set<string>, ql: string, t: string): set<string>
  {
    set k | k in done && k in kw && IsSubstring(k, ql) && t in kw[k]
  }

  /** The tables named by the keywords among `done` that occur in `ql`. */
  function TablesIn(kw: Keywords, done: set<string>, ql: string): set<string>
  {
    set k, t | k in done && k in kw && IsSubstring(k, ql) && t in kw[k] :: t
  }

  lemma TablesStep(kw: Keywords, done: set<string>, k: string, ql: string)
    requires k in kw
    ensures TablesIn(kw, done + {k}, ql) == TablesIn(kw, done, ql) + (if IsSubstring(k, ql) then kw[k] else {})
  {
    var l, r := TablesIn(kw, done + {k}, ql), TablesIn(kw, done, ql) + (if IsSubstring(k, ql) then kw[k] else {});
    forall t | t in r ensures t in l {
      if t !in TablesIn(kw, done, ql) {
        assert k in done + {k} && t in kw[k];
      }
    }
  }

  lemma HitsStep(kw: Keywords, done: set<string>, k: string, ql: string, t: string)
    requires k in kw && k !in done
    ensures |HitsIn(kw, done + {k}, ql, t)| == |HitsIn(kw, done, ql, t)| + (if IsSubstring(k, ql) && t in kw[k] then 1 else 0)
  {
    var old_ := HitsIn(kw, done, ql, t);
    if IsSubstring(k, ql) && t in kw[k] {
      assert HitsIn(kw, done + {k}, ql, t) == old_ + {k};
      assert k !in old_;
    } else {
      assert HitsIn(kw, done + {k}, ql, t) == old_;
    }
  }

  /** The inner loop of step 1: every table of a matched keyword is
      selected and gains `bonus` points. */
  method AddToTables(tables: set<string>, bonus: int, selected: set<string>, scores: map<string, int>)
    returns (selected': set<string>, scores': map<string, int>)
    ensures selected' == selected + tables
    ensures forall t :: GetScore(scores', t) == GetScore(scores, t) + (if t in tables then bonus else 0)
  {
    selected', scores' := selected, scores;
    var rest := tables;
    while rest != {}
      invariant rest <= tables
      invariant selected' == selected + (tables - rest)
      invariant forall t :: GetScore(scores', t) == GetScore(scores, t) + (if t in tables && t !in rest then bonus else 0)
      decreases |rest|
    {
      var table :| table in rest;
      selected' := selected' + {table};
      scores' := scores'[table := GetScore(scores', table) + bonus];
      rest := rest - {table};
    }
  }

  /** The scores after step 1 over the keywords in `done`. */
  ghost predicate KeywordScores(kw: Keywords, done: set<string>, ql: string, scores: map<string, int>)
  {
    forall t :: GetScore(scores, t) == 2 * |HitsIn(kw, done, ql, t)|
  }

  lemma KeywordScoresStep(kw: Keywords, done: set<string>, k: string, ql: string,
                          scores: map<string, int>, scores': map<string, int>)
    requires k in kw && k !in done
    requires KeywordScores(kw, done, ql, scores)
    requires forall t :: GetScore(scores', t) == GetScore(scores, t) + (if IsSubstring(k, ql) && t in kw[k] then 2 else 0)
    ensures KeywordScores(kw, done + {k}, ql, scores')
  {
    forall t ensures GetScore(scores', t) == 2 * |HitsIn(kw, done + {k}, ql, t)| {
      HitsStep(kw, done, k, ql, t);
    }
  }

  /** One turn of the loop of `KeywordPass` keeps its invariant. */
  lemma KeywordPassStep(kw: Keywords, done: set<string>, k: string, ql: string,
                        selected0: set<string>, scores0: map<string, int>, selected: set<string>, scores: map<string, int>)
    requires k in kw && k !in done
    requires selected0 == TablesIn(kw, done, ql) && KeywordScores(kw, done, ql, scores0)
    requires IsSubstring(k, ql) ==> selected == selected0 + kw[k]
    requires IsSubstring(k, ql) ==> forall t :: GetScore(scores, t) == GetScore(scores0, t) + (if t in kw[k] then 2 else 0)
    requires !IsSubstring(k, ql) ==> selected == selected0 && scores == scores0
    ensures selected == TablesIn(kw, done + {k}, ql) && KeywordScores(kw, done + {k}, ql, scores)
  {
    TablesStep(kw, done, k, ql);
    KeywordScoresStep(kw, done, k, ql, scores0, scores);
  }

  /** A table with a hit is one of the matched tables. */
  lemma HitsInTables(kw: Keywords, done: set<string>, ql: string, t: string)
    ensures HitsIn(kw, done, ql, t) != {} ==> t in TablesIn(kw, done, ql)
  {
    if HitsIn(kw, done, ql, t) != {} {
      var k :| k in HitsIn(kw, done, ql, t);
      assert k in done && k in kw && IsSubstring(k, ql) && t in kw[k];
    }
  }

  /** Step 1: every matched keyword adds 2 to each of its tables. */
  method KeywordPass(kw: Keywords, ql: string) returns (selected: set<string>, scores: map<string, int>)
    ensures selected == TablesIn(kw, kw.Keys, ql)
    ensures KeywordScores(kw, kw.Keys, ql, scores)
    ensures forall t :: t !in selected ==> GetScore(scores, t) == 0
  {
    selected, scores := {}, map[];
    var todo := kw.Keys;
    ghost var done: set<string> := {};
    while todo != {}
      invariant todo + done == kw.Keys && todo !! done
      invariant selected == TablesIn(kw, done, ql)
      invariant KeywordScores(kw, done, ql, scores)
      decreases |todo|
    {
      var keyword :| keyword in todo;
      ghost var selected0, scores0 := selected, scores;
      if IsSubstring(keyword, ql) {
        selected, scores := AddToTables(kw[keyword], 2, selected, scores);
      }
      KeywordPassStep(kw, done, keyword, ql, selected0, scores0, selected, scores);
      todo := todo - {keyword};
      done := done + {keyword};
    }
    forall t | t !in selected ensures GetScore(scores, t) == 0 {
      HitsInTables(kw, kw.Keys, ql, t);
    }
  }

  // ---------------------------------------------------------------------------
  // Step 2: related tables
  // ---------------------------------------------------------------------------

  /** The relationship pass: for each related table not yet selected, look
      for a matched keyword naming it. Since every table a matched keyword
      names was selected in step 1, the search never succeeds and the pass
      adds no table and changes no score. */
  method RelationshipPass(kw: Keywords, rels: map<string, set<string>>, ql: string,
                          selected: set<string>, scores: map<string, int>)
    returns (selected': set<string>, scores': map<string, int>)
    requires selected == TablesIn(kw, kw.Keys, ql)
    ensures selected' == selected && scores' == scores
  {
    var tablesToAdd: set<string> := {};
    scores' := scores;
    var todo := selected;
    while todo != {}
      invariant tablesToAdd == {} && scores' == scores
      decreases |todo|
    {
      var table :| table in todo;
      if table in rels {
        var relTodo := rels[table];
        while relTodo != {}
          invariant tablesToAdd == {} && scores' == scores
          decreases |relTodo|
        {
          var rel :| rel in relTodo;
          if rel !in selected {
            var kwTodo := kw.Keys;
            while kwTodo != {}
              invariant kwTodo <= kw.Keys
              invariant tablesToAdd == {} && scores' == scores
              decreases |kwTodo|
            {
              var keyword :| keyword in kwTodo;
              assert rel in kw[keyword] && IsSubstring(keyword, ql) ==> rel in selected;
              if rel in kw[keyword] && IsSubstring(keyword, ql) {
                tablesToAdd := tablesToAdd + {rel};
                scores' := scores'[rel := GetScore(scores', rel) + 1];
              }
              kwTodo := kwTodo - {keyword};
            }
          }
          relTodo := relTodo - {rel};
        }
      }
      todo := todo - {table};
    }
    selected' := selected + tablesToAdd;
  }

  // ---------------------------------------------------------------------------
  // Step 3: bridge tables
  // ---------------------------------------------------------------------------

  /** A junction-table lookup for a pair of tables. */
  type BridgeLookup = (string, string) -> Option<string>

  /** `_find_bridge_table`: the junction table joining two tables, looked up
      by the unordered pair. */
  function FindBridge(t1: string, t2: string): Option<string>
  {
    var key := {t1, t2};
    if key == {"film", "actor"} then Some("film_actor")
    else if key == {"film", "category"} then Some("film_category")
    else if key == {"city", "customer"} then Some("address")
    else if key == {"country", "customer"} then Some("city")
    else None
  }

  /** The lookup ignores argument order, finds nothing for a table paired
      with itself, and knows exactly the four junctions. */
  lemma FindBridgeSpec(t1: string, t2: string)
    ensures FindBridge(t1, t2) == FindBridge(t2, t1)
    ensures t1 == t2 ==> FindBridge(t1, t2) == None
    ensures FindBridge(t1, t2).Some? <==>
              || {t1, t2} == {"film", "actor"} || {t1, t2} == {"film", "category"}
              || {t1, t2} == {"city", "customer"} || {t1, t2} == {"country", "customer"}
    ensures FindBridge(t1, t2).Some? ==> FindBridge(t1, t2).value in {"film_actor", "film_category", "address", "city"}
  {
    assert {t1, t2} == {t2, t1};
    if t1 == t2 {
      assert {t1, t2} == {t1};
      assert "film" in {t1} ==> "actor" !in {t1};
      assert "city" in {t1} ==> "customer" !in {t1};
      assert "country" in {t1} ==> "customer" !in {t1};
    }
  }

  ghost predicate Symmetric(find: BridgeLookup)
  {
    forall a, b :: find(a, b) == find(b, a)
  }

  lemma FindBridgeSymmetric()
    ensures Symmetric(FindBridge)
  {
    forall a, b ensures FindBridge(a, b) == FindBridge(b, a) {
      FindBridgeSpec(a, b);
    }
  }

  /** The bridges of the pairs of distinct tables of `s`. */
  function BridgeSet(find: BridgeLookup, s: set<string>): set<string>
  {
    set a, b | a in s && b in s && a != b && find(a, b).Some? :: find(a, b).value
  }

  /** The bridges between `t1` and the tables of `others`. */
  function BridgesWith(find: BridgeLookup, t1: string, others: seq<string>): set<string>
  {
    set x | x in others && find(t1, x).Some? :: find(t1, x).value
  }

  /** The bridges of the pairs `(list[p], list[q])` with `p < q` and `p < i`. */
  function PairBridges(find: BridgeLookup, list: seq<string>, i: nat): set<string>
    requires i <= |list|
  {
    if i == 0 then {} else PairBridges(find, list, i - 1) + BridgesWith(find, list[i - 1], list[i..])
  }

  lemma {:induction false} PairBridgesSound(find: BridgeLookup, list: seq<string>, i: nat)
    requires i <= |list| && NoDuplicates(list)
    ensures PairBridges(find, list, i) <= BridgeSet(find, Elements(list))
  {
    if i > 0 {
      PairBridgesSound(find, list, i - 1);
      var t1 := list[i - 1];
      forall x | x in BridgesWith(find, t1, list[i..]) ensures x in BridgeSet(find, Elements(list)) {
        var b :| b in list[i..] && find(t1, b).Some? && find(t1, b).value == x;
        var q :| 0 <= q < |list[i..]| && list[i..][q] == b;
        assert list[i + q] == b;
        assert t1 in Elements(list) && b in Elements(list) && t1 != b;
      }
    }
  }

  lemma {:induction false} PairBridgesComplete(find: BridgeLookup, list: seq<string>, i: nat, p: nat, q: nat)
    requires p < i <= |list| && p < q < |list|
    requires find(list[p], list[q]).Some?
    ensures find(list[p], list[q]).value in PairBridges(find, list, i)
  {
    if p == i - 1 {
      assert list[q] in list[i..] by {
        assert list[i..][q - i] == list[q];
      }
    } else {
      PairBridgesComplete(find, list, i - 1, p, q);
    }
  }

  /** For a symmetric lookup, looping over the pairs `p < q` of a
      duplicate-free list finds the bridges of every pair of distinct
      elements, and nothing else. */
  lemma AllPairBridges(find: BridgeLookup, list: seq<string>)
    requires Symmetric(find) && NoDuplicates(list)
    ensures PairBridges(find, list, |list|) == BridgeSet(find, Elements(list))
  {
    PairBridgesSound(find, list, |list|);
    forall x | x in BridgeSet(find, Elements(list)) ensures x in PairBridges(find, list, |list|) {
      var a, b :| a in Elements(list) && b in Elements(list) && a != b && find(a, b).Some? && find(a, b).value == x;
      var p :| 0 <= p < |list| && list[p] == a;
      var q :| 0 <= q < |list| && list[q] == b;
      assert find(a, b) == find(b, a);
      if p < q {
        PairBridgesComplete(find, list, |list|, p, q);
      } else {
        PairBridgesComplete(find, list, |list|, q, p);
      }
    }
  }

  /** The inner loop of step 3: `t1` against each later table of the list.
      A bridge not yet selected is added with one point. */
  method AddBridgesWith(find: BridgeLookup, t1: string, others: seq<string>, selected: set<string>, scores: map<string, int>)
    returns (selected': set<string>, scores': map<string, int>)
    ensures selected' == selected + BridgesWith(find, t1, others)
    ensures PointPerNew(scores, scores', selected, selected')
  {
    selected', scores' := selected, scores;
    var j := 0;
    while j < |others|
      invariant 0 <= j <= |others|
      invariant selected' == selected + BridgesWith(find, t1, others[..j])
      invariant PointPerNew(scores, scores', selected, selected')
    {
      var t2 := others[j];
      var bridge := find(t1, t2);
      assert others[..j + 1] == others[..j] + [t2];
      assert BridgesWith(find, t1, others[..j + 1]) == BridgesWith(find, t1, others[..j]) + (if bridge.Some? then {bridge.value} else {});
      if bridge.Some? && bridge.value !in selected' {
        selected' := selected' + {bridge.value};
        scores' := scores'[bridge.value := GetScore(scores', bridge.value) + 1];
      }
      j := j + 1;
    }
    assert others[..j] == others;
  }

  /** Step 3 over a snapshot list of the selection: each pair's bridge that
      is not yet selected is added and gains one point; nothing else
      changes. */
  method BridgePass(find: BridgeLookup, s1: set<string>, scores1: map<string, int>)
    returns (selected: set<string>, scores: map<string, int>)
    requires Symmetric(find)
    ensures selected == s1 + BridgeSet(find, s1)
    ensures PointPerNew(scores1, scores, s1, selected)
  {
    var selectedList := SetToList(s1);
    selected, scores := s1, scores1;
    var i := 0;
    while i < |selectedList|
      invariant 0 <= i <= |selectedList|
      invariant selected == s1 + PairBridges(find, selectedList, i)
      invariant PointPerNew(scores1, scores, s1, selected)
    {
      ghost var selected0, scores0 := selected, scores;
      selected, scores := AddBridgesWith(find, selectedList[i], selectedList[i + 1..], selected, scores);
      BridgePassStep(find, selectedList, i, s1, scores1, selected0, scores0, selected, scores);
      i := i + 1;
    }
    AllPairBridges(find, selectedList);
  }

  /** One turn of the loop of `BridgePass` keeps its invariant. */
  lemma BridgePassStep(find: BridgeLookup, list: seq<string>, i: nat, s1: set<string>, scores1: map<string, int>,
                       selected0: set<string>, scores0: map<string, int>, selected: set<string>, scores: map<string, int>)
    requires i < |list|
    requires selected0 == s1 + PairBridges(find, list, i)
    requires PointPerNew(scores1, scores0, s1, selected0)
    requires selected == selected0 + BridgesWith(find, list[i], list[i + 1..])
    requires PointPerNew(scores0, scores, selected0, selected)
    ensures selected == s1 + PairBridges(find, list, i + 1)
    ensures PointPerNew(scores1, scores, s1, selected)
  {
    NewlySelectedChain(scores1, scores0, scores, s1, selected0, selected);
  }

  /** `after` gives one more point than `before` to each table in `s'`
      but not in `s`, and the same score to every other table. */
  ghost predicate PointPerNew(before: map<string, int>, after: map<string, int>, s: set<string>, s': set<string>)
  {
    forall t :: GetScore(after, t) == GetScore(before, t) + (if t in s' && t !in s then 1 else 0)
  }

  /** Two passes that each add a point to the tables they newly select add,
      together, a point to each table newly selected by either. */
  lemma NewlySelectedChain(a: map<string, int>, b: map<string, int>, c: map<string, int>,
                           s1: set<string>, s2: set<string>, s3: set<string>)
    requires s1 <= s2 <= s3
    requires PointPerNew(a, b, s1, s2)
    requires PointPerNew(b, c, s2, s3)
    ensures PointPerNew(a, c, s1, s3)
  {
  }

  // ---------------------------------------------------------------------------
  // Step 4 and the whole selection
  // ---------------------------------------------------------------------------

  /** The sort key `(score * 10 + priority, priority)`. */
  function SortKey(scores: map<string, int>, t: string): (int, int)
  {
    (GetScore(scores, t) * 10 + Priority(t), Priority(t))
  }

  /** Key `a` may stand before key `b` in descending lexicographic order. */
  predicate KeyAtLeast(a: (int, int), b: (int, int))
  {
    a.0 > b.0 || (a.0 == b.0 && a.1 >= b.1)
  }

  lemma KeyAtLeastIsTotalPreorder()
    ensures IsTotalPreorder(KeyAtLeast)
  {
  }

  /** Every table the selection may return for the lower-cased question
      `ql`: the keyword tables and the bridges between them. */
  function FinalTablesFor(kw: Keywords, find: BridgeLookup, ql: string): set<string>
  {
    TablesIn(kw, kw.Keys, ql) + BridgeSet(find, TablesIn(kw, kw.Keys, ql))
  }

  /** The score a selected table ends with: 2 per matched keyword naming it,
      or 1 for a table selected only as a bridge. */
  function FinalScoreFor(kw: Keywords, find: BridgeLookup, ql: string, t: string): int
  {
    if t in TablesIn(kw, kw.Keys, ql) then 2 * |HitsIn(kw, kw.Keys, ql, t)|
    else if t in BridgeSet(find, TablesIn(kw, kw.Keys, ql)) then 1
    else 0
  }

  function FinalKeyFor(kw: Keywords, find: BridgeLookup, ql: string, t: string): (int, int)
  {
    (FinalScoreFor(kw, find, ql, t) * 10 + Priority(t), Priority(t))
  }

  /** Steps 1 to 3: the selected set and the scores. */
  method ScoreTables(kw: Keywords, rels: map<string, set<string>>, find: BridgeLookup, ql: string)
    returns (selected: set<string>, scores: map<string, int>)
    requires Symmetric(find)
    ensures selected == FinalTablesFor(kw, find, ql)
    ensures forall t :: GetScore(scores, t) == FinalScoreFor(kw, find, ql, t)
  {
    selected, scores := KeywordPass(kw, ql);
    selected, scores := RelationshipPass(kw, rels, ql, selected, scores);
    ghost var s1, scores1 := selected, scores;
    selected, scores := BridgePass(find, selected, scores);
    forall t ensures GetScore(scores, t) == FinalScoreFor(kw, find, ql, t) {
      if t !in s1 {
        assert GetScore(scores1, t) == 0;
      }
    }
  }

  /** `result` is `s[:maxTables]` of a list of the tables of `selected`,
      sorted by descending `key`: duplicate-free, of the right length, the
      whole selection when it fits, in key order, and no left-out table has
      a greater key than a kept one. */
  ghost predicate TopSelection(result: seq<string>, selected: set<string>, key: string -> (int, int), maxTables: int)
  {
    && NoDuplicates(result)
    && Elements(result) <= selected
    && |result| == PrefixLength(|selected|, maxTables)
    && (maxTables >= |selected| ==> Elements(result) == selected)
    && (forall i, j :: 0 <= i < j < |result| ==> KeyAtLeast(key(result[i]), key(result[j])))
    && (forall i, t :: 0 <= i < |result| && t in selected && t !in result ==> KeyAtLeast(key(result[i]), key(t)))
  }

  /** Only the values of the key matter. */
  lemma TopSelectionKeys(result: seq<string>, selected: set<string>, key1: string -> (int, int), key2: string -> (int, int), maxTables: int)
    requires TopSelection(result, selected, key1, maxTables)
    requires forall t :: key1(t) == key2(t)
    ensures TopSelection(result, selected, key2, maxTables)
  {
  }

  /** Step 4: sorts the selection by descending `SortKey`, stably over an
      arbitrary iteration order of the set, and keeps `s[:maxTables]`. */
  method RankTables(selected: set<string>, scores: map<string, int>, maxTables: int) returns (result: seq<string>)
    ensures TopSelection(result, selected, t => SortKey(scores, t), maxTables)
  {
    var candidates := SetToList(selected);
    var key := (t: string) => SortKey(scores, t);
    KeyAtLeastIsTotalPreorder();
    var sortedTables := SortBy(candidates, key, KeyAtLeast);
    SortSorted(candidates, key, KeyAtLeast);
    NoDuplicatesPermutation(candidates, sortedTables);
    SameElements(candidates, sortedTables);
    ElementsCard(sortedTables);
    result := PyPrefix(sortedTables, maxTables);
    TopPrefix(sortedTables, maxTables, key, KeyAtLeast);
    if maxTables >= |selected| {
      assert result == sortedTables;
    }
  }

  /** `select_tables` for given keyword, relationship and bridge tables.
      Ties in the sort key are ordered by set iteration order, which the
      model leaves open: the result is specified as a top-`maxTables`
      prefix in descending key order. */
  method SelectTablesWith(kw: Keywords, rels: map<string, set<string>>, find: BridgeLookup, question: string, maxTables: int)
    returns (result: seq<string>)
    requires Symmetric(find)
    ensures TopSelection(result, FinalTablesFor(kw, find, Lower(question)), t => FinalKeyFor(kw, find, Lower(question), t), maxTables)
  {
    var questionLower := Lower(question);
    var selected, scores := ScoreTables(kw, rels, find, questionLower);
    result := RankTables(selected, scores, maxTables);
    ScoreKeysAgree(kw, find, questionLower, scores);
    TopSelectionKeys(result, selected, t => SortKey(scores, t), t => FinalKeyFor(kw, find, questionLower, t), maxTables);
  }

  /** Scores that agree with the final scores give the final sort keys. */
  lemma ScoreKeysAgree(kw: Keywords, find: BridgeLookup, ql: string, scores: map<string, int>)
    requires forall t :: GetScore(scores, t) == FinalScoreFor(kw, find, ql, t)
    ensures forall t :: SortKey(scores, t) == FinalKeyFor(kw, find, ql, t)
  {
    forall t ensures SortKey(scores, t) == FinalKeyFor(kw, find, ql, t) {
      assert GetScore(scores, t) == FinalScoreFor(kw, find, ql, t);
    }
  }

  /** The tables the keywords name in a question. */
  function KeywordTables(question: string): set<string>
  {
    TablesIn(KeywordToTables, KeywordToTables.Keys, Lower(question))
  }

  function FinalTables(question: string): set<string>
  {
    FinalTablesFor(KeywordToTables, FindBridge, Lower(question))
  }

  function FinalKey(question: string, t: string): (int, int)
  {
    FinalKeyFor(KeywordToTables, FindBridge, Lower(question), t)
  }

  /** `TableSelector.select_tables(question, max_tables)`. */
  method SelectTables(question: string, maxTables: int) returns (result: seq<string>)
    ensures TopSelection(result, FinalTables(question), t => FinalKey(question, t), maxTables)
  {
    FindBridgeSymmetric();
    result := SelectTablesWith(KeywordToTables, TableRelationships, FindBridge, question, maxTables);
    TopSelectionKeys(result, FinalTables(question), t => FinalKeyFor(KeywordToTables, FindBridge, Lower(question), t),
                     t => FinalKey(question, t), maxTables);
  }

  // ---------------------------------------------------------------------------
  // Properties of the selection
  // ---------------------------------------------------------------------------

  /** A question in which no keyword occurs selects nothing. */
  lemma NoKeywordNoTables(kw: Keywords, find: BridgeLookup, ql: string)
    requires forall k :: k in kw ==> !IsSubstring(k, ql)
    ensures FinalTablesFor(kw, find, ql) == {}
  {
    assert TablesIn(kw, kw.Keys, ql) == {};
  }

  /** Every table of a matched keyword is selected, with at least 2 points. */
  lemma KeywordTableSelected(kw: Keywords, find: BridgeLookup, ql: string, k: string, t: string)
    requires k in kw && IsSubstring(k, ql) && t in kw[k]
    ensures t in FinalTablesFor(kw, find, ql)
    ensures FinalScoreFor(kw, find, ql, t) >= 2
  {
    assert k in HitsIn(kw, kw.Keys, ql, t);
  }

  /** A question mentioning "xep hang" (ranking) selects film, actor and
      customer, and with film and actor the junction table film_actor. */
  lemma RankingSelectsFilmActor(question: string)
    requires IsSubstring("xep hang", Lower(question))
    ensures {"film", "actor", "customer", "film_actor"} <= FinalTables(question)
  {
    DuplicateKeywordsKeepLastValue();
    RankingSelectsFilmActorFor(KeywordToTables, Lower(question));
  }

  lemma RankingSelectsFilmActorFor(kw: Keywords, ql: string)
    requires "xep hang" in kw && kw["xep hang"] == {"film", "actor", "customer"}
    requires IsSubstring("xep hang", ql)
    ensures {"film", "actor", "customer", "film_actor"} <= FinalTablesFor(kw, FindBridge, ql)
  {
    KeywordSetSelected(kw, FindBridge, ql, "xep hang");
    assert FindBridge("film", "actor") == Some("film_actor");
  }

  /** "doanh thu" (revenue) is a payment keyword that no later section
      redefines. */
  lemma RevenueKeyword()
    ensures "doanh thu" in KeywordToTables
    ensures KeywordToTables["doanh thu"] == {"payment", "rental"}
  {
    RevenueInPayment();
    RevenueNotInStore();
    RevenueNotInStaff();
    RevenueNotInInventory();
    RevenueNotInLocation();
    RevenueNotInLanguage();
    RevenueNotInTime();
    RevenueNotInStatistics();
  }

  lemma RevenueInPayment()
    ensures "doanh thu" in PaymentKeywords && PaymentKeywords["doanh thu"] == {"payment", "rental"}
  {
  }

  lemma RevenueNotInStore()
    ensures "doanh thu" !in StoreKeywords
  {
  }

  lemma RevenueNotInStaff()
    ensures "doanh thu" !in StaffKeywords
  {
  }

  lemma RevenueNotInInventory()
    ensures "doanh thu" !in InventoryKeywords
  {
  }

  lemma RevenueNotInLocation()
    ensures "doanh thu" !in LocationKeywords
  {
  }

  lemma RevenueNotInLanguage()
    ensures "doanh thu" !in LanguageKeywords
  {
  }

  lemma RevenueNotInTime()
    ensures "doanh thu" !in TimeKeywords
  {
  }

  lemma RevenueNotInStatistics()
    ensures "doanh thu" !in StatisticsKeywords
  {
  }

  /** A question mentioning "doanh thu" selects both payment and rental. */
  lemma RevenueSelectsPaymentAndRental(question: string)
    requires IsSubstring("doanh thu", Lower(question))
    ensures {"payment", "rental"} <= FinalTables(question)
  {
    RevenueKeyword();
    RevenueSelectsFor(KeywordToTables, FindBridge, Lower(question));
  }

  lemma RevenueSelectsFor(kw: Keywords, find: BridgeLookup, ql: string)
    requires "doanh thu" in kw && kw["doanh thu"] == {"payment", "rental"}
    requires IsSubstring("doanh thu", ql)
    ensures {"payment", "rental"} <= FinalTablesFor(kw, find, ql)
  {
    KeywordTableSelected(kw, find, ql, "doanh thu", "payment");
    KeywordTableSelected(kw, find, ql, "doanh thu", "rental");
  }

  /** The duplicate literal keys resolve to their last value: the film
      section's {"film"} is overridden by the statistics section. */
  lemma DuplicateKeywordsKeepLastValue()
    ensures "xếp hạng" in FilmKeywords && FilmKeywords["xếp hạng"] == {"film"}
    ensures "xep hang" in FilmKeywords && FilmKeywords["xep hang"] == {"film"}
    ensures "xếp hạng" in KeywordToTables && KeywordToTables["xếp hạng"] == {"film", "actor", "customer"}
    ensures "xep hang" in KeywordToTables && KeywordToTables["xep hang"] == {"film", "actor", "customer"}
  {
    RankingInFilm();
    RankingInStatistics();
  }

  lemma RankingInFilm()
    ensures "xếp hạng" in FilmKeywords && FilmKeywords["xếp hạng"] == {"film"}
    ensures "xep hang" in FilmKeywords && FilmKeywords["xep hang"] == {"film"}
  {
  }

  lemma RankingInStatistics()
    ensures "xếp hạng" in StatisticsKeywords && StatisticsKeywords["xếp hạng"] == {"film", "actor", "customer"}
    ensures "xep hang" in StatisticsKeywords && StatisticsKeywords["xep hang"] == {"film", "actor", "customer"}
  {
  }

  /** If both tables of a junction pair are named by keywords, the junction
      table is selected; its score is 1 unless a keyword names it too. */
  lemma BridgeOfSelectedPair(kw: Keywords, find: BridgeLookup, ql: string, a: string, b: string)
    requires a in TablesIn(kw, kw.Keys, ql) && b in TablesIn(kw, kw.Keys, ql) && a != b
    requires find(a, b).Some?
    ensures find(a, b).value in FinalTablesFor(kw, find, ql)
    ensures find(a, b).value !in TablesIn(kw, kw.Keys, ql) ==> FinalScoreFor(kw, find, ql, find(a, b).value) == 1
  {
  }

  /** A matched keyword selects all of its tables, and the junction table
      of any two of them. */
  lemma KeywordSetSelected(kw: Keywords, find: BridgeLookup, ql: string, k: string)
    requires k in kw && IsSubstring(k, ql)
    ensures kw[k] <= FinalTablesFor(kw, find, ql)
    ensures forall a, b :: a in kw[k] && b in kw[k] && a != b && find(a, b).Some? ==> find(a, b).value in FinalTablesFor(kw, find, ql)
  {
    forall a | a in kw[k] ensures a in TablesIn(kw, kw.Keys, ql) {
      assert k in HitsIn(kw, kw.Keys, ql, a);
    }
  }

  lemma PriorityBounds(t: string)
    ensures 0 <= Priority(t) <= 10
  {
  }

  /** A table named by a keyword outranks a table selected only as a bridge
      whose priority is below 10: its key is at least 20, the bridge's
      `10 + priority`. */
  lemma {:induction false} KeywordOutranksBridgeFor(kw: Keywords, find: BridgeLookup, ql: string, t: string, u: string)
    requires t in TablesIn(kw, kw.Keys, ql)
    requires u in FinalTablesFor(kw, find, ql) && u !in TablesIn(kw, kw.Keys, ql)
    requires Priority(u) < 10
    ensures FinalKeyFor(kw, find, ql, t).0 >= 20
    ensures FinalKeyFor(kw, find, ql, u).0 == 10 + Priority(u)
    ensures FinalKeyFor(kw, find, ql, t).0 > FinalKeyFor(kw, find, ql, u).0
  {
    var k :| k in kw.Keys && k in kw && IsSubstring(k, ql) && t in kw[k];
    assert k in HitsIn(kw, kw.Keys, ql, t);
    PriorityBounds(t);
  }

  /** Every junction table has priority at most 4. */
  lemma BridgePriority(t1: string, t2: string)
    ensures FindBridge(t1, t2).Some? ==> 1 <= Priority(FindBridge(t1, t2).value) <= 4
  {
    FindBridgeSpec(t1, t2);
  }

  /** With the shipped tables every bridge has priority at most 4, so any
      keyword table outranks every bridge-only table. */
  lemma KeywordOutranksBridge(question: string, t: string, u: string)
    requires t in KeywordTables(question)
    requires u in FinalTables(question) && u !in KeywordTables(question)
    ensures FinalKey(question, t).0 >= 20 && FinalKey(question, u).0 <= 14
  {
    BridgeOnlyLow(KeywordToTables, Lower(question), u);
    KeywordOutranksBridgeWith(KeywordToTables, FindBridge, Lower(question), t, u);
  }

  /** A table selected only as a shipped bridge has priority at most 4. */
  lemma BridgeOnlyLow(kw: Keywords, ql: string, u: string)
    requires u in FinalTablesFor(kw, FindBridge, ql) && u !in TablesIn(kw, kw.Keys, ql)
    ensures Priority(u) <= 4
  {
    var s := TablesIn(kw, kw.Keys, ql);
    assert u in BridgeSet(FindBridge, s);
    var a, b :| a in s && b in s && a != b && FindBridge(a, b).Some? && FindBridge(a, b).value == u;
    BridgePriority(a, b);
  }

  /** A keyword table outranks a bridge-only table of priority at most 4. */
  lemma KeywordOutranksBridgeWith(kw: Keywords, find: BridgeLookup, ql: string, t: string, u: string)
    requires t in TablesIn(kw, kw.Keys, ql)
    requires u in FinalTablesFor(kw, find, ql) && u !in TablesIn(kw, kw.Keys, ql)
    requires Priority(u) <= 4
    ensures FinalKeyFor(kw, find, ql, t).0 >= 20 && FinalKeyFor(kw, find, ql, u).0 <= 14
  {
    KeywordOutranksBridgeFor(kw, find, ql, t, u);
  }

  /** Consequently, in any key-ordered selection the keyword tables come
      before the bridge-only tables. */
  lemma KeywordTablesFirst(question: string, r: seq<string>)
    requires Elements(r) <= FinalTables(question)
    requires forall i, j :: 0 <= i < j < |r| ==> KeyAtLeast(FinalKey(question, r[i]), FinalKey(question, r[j]))
    ensures forall i, j :: 0 <= i < j < |r| && r[j] in KeywordTables(question) ==> r[i] in KeywordTables(question)
  {
    KeywordTablesFirstWith(KeywordToTables, Lower(question), r);
  }

  lemma KeywordTablesFirstWith(kw: Keywords, ql: string, r: seq<string>)
    requires Elements(r) <= FinalTablesFor(kw, FindBridge, ql)
    requires forall i, j :: 0 <= i < j < |r| ==> KeyAtLeast(FinalKeyFor(kw, FindBridge, ql, r[i]), FinalKeyFor(kw, FindBridge, ql, r[j]))
    ensures forall i, j :: 0 <= i < j < |r| && r[j] in TablesIn(kw, kw.Keys, ql) ==> r[i] in TablesIn(kw, kw.Keys, ql)
  {
    forall i, j | 0 <= i < j < |r| && r[j] in TablesIn(kw, kw.Keys, ql) ensures r[i] in TablesIn(kw, kw.Keys, ql) {
      if r[i] !in TablesIn(kw, kw.Keys, ql) {
        assert r[i] in Elements(r);
        BridgeOnlyLow(kw, ql, r[i]);
        KeywordOutranksBridgeWith(kw, FindBridge, ql, r[j], r[i]);
      }
    }
  }
}

/** The language context of src/contexts/LanguageContext.tsx: the two
    translation tables, the lookup `t` with its fallback to the key, the text
    direction, and the language choice kept in browser storage. A language is
    a string because the stored value is read back without any check. */
module Translation {
  import opened Types

  /** Each table is written as the union of four displays of 24 entries,
      in the order of the source's object literal; together they hold its
      96 entries. */
  const English: map<string, string> := English1 + English2 + English3 + English4
  const Arabic: map<string, string> := Arabic1 + Arabic2 + Arabic3 + Arabic4

  const English1: map<string, string> := map[
    "home" := "Home",
    "hotels" := "Hotels",
    "rooms" := "Rooms & Suites",
    "myBookings" := "My Bookings",
    "dashboard" := "Dashboard",
    "admin" := "Admin",
    "signIn" := "Sign In",
    "signUp" := "Sign Up",
    "signOut" := "Sign Out",
    "welcomeBack" := "Welcome Back",
    "createAccount" := "Create Account",
    "email" := "Email",
    "password" := "Password",
    "fullName" := "Full Name",
    "phone" := "Phone",
    "accountType" := "Account Type",
    "guest" := "Guest",
    "hotelOwner" := "Hotel Owner",
    "luxuryAwaits" := "Luxury Awaits",
    "yourPerfectStay" := "Your Perfect Stay",
    "discoverHotels" := "Discover exceptional hotels and create unforgettable memories",
    "searchHotels" := "Search Hotels",
    "city" := "City",
    "checkIn" := "Check In"
  ]

  const English2: map<string, string> := map[
    "checkOut" := "Check Out",
    "guests" := "Guests",
    "featuredHotels" := "Featured Hotels",
    "viewAllHotels" := "View All Hotels",
    "viewDetails" := "View Details",
    "bookNow" := "Book Now",
    "whyChooseHotex" := "Why Choose Hotex",
    "secureBooking" := "Secure Booking",
    "bestPriceGuarantee" := "Best Price Guarantee",
    "support247" := "24/7 Support",
    "instantConfirmation" := "Instant Confirmation",
    "myHotels" := "My Hotels",
    "addHotel" := "Add Hotel",
    "manageRooms" := "Manage Rooms",
    "hotelName" := "Hotel Name",
    "description" := "Description",
    "address" := "Address",
    "country" := "Country",
    "starRating" := "Star Rating",
    "status" := "Status",
    "actions" := "Actions",
    "edit" := "Edit",
    "delete" := "Delete",
    "save" := "Save"
  ]

  const English3: map<string, string> := map[
    "cancel" := "Cancel",
    "bookingManagement" := "Booking Management",
    "userManagement" := "User Management",
    "hotelManagement" := "Hotel Management",
    "analytics" := "Analytics",
    "totalRevenue" := "Total Revenue",
    "totalBookings" := "Total Bookings",
    "activeHotels" := "Active Hotels",
    "totalUsers" := "Total Users",
    "pending" := "Pending",
    "confirmed" := "Confirmed",
    "checkedIn" := "Checked In",
    "completed" := "Completed",
    "canceled" := "Canceled",
    "roomTitle" := "Room Title",
    "pricePerNight" := "Price per Night",
    "maxGuests" := "Max Guests",
    "available" := "Available",
    "notAvailable" := "Not Available",
    "totalPrice" := "Total Price",
    "specialRequests" := "Special Requests",
    "bookingDetails" := "Booking Details",
    "guestName" := "Guest Name",
    "nights" := "nights"
  ]

  const English4: map<string, string> := map[
    "perNight" := "per night",
    "createBooking" := "Create Booking",
    "selectRoom" := "Select Room",
    "confirmBooking" := "Confirm Booking",
    "bookingSuccess" := "Booking confirmed successfully!",
    "bookingError" := "Failed to create booking",
    "loading" := "Loading...",
    "noResults" := "No results found",
    "searchPlaceholder" := "Search by hotel name, city, or country...",
    "filters" := "Filters",
    "sortBy" := "Sort By",
    "highestRated" := "Highest Rated",
    "nameAZ" := "Name (A-Z)",
    "minRating" := "Minimum Rating",
    "anyRating" := "Any Rating",
    "starCategory" := "Star Category",
    "anyCategory" := "Any Category",
    "found" := "Found",
    "hotel" := "hotel",
    "role" := "Role",
    "client" := "Client",
    "owner" := "Owner",
    "createdAt" := "Created At",
    "updatedAt" := "Updated At"
  ]

  const Arabic1: map<string, string> := map[
    "home" := "الرئيسية",
    "hotels" := "الفنادق",
    "rooms" := "الغرف والأجنحة",
    "myBookings" := "حجوزاتي",
    "dashboard" := "لوحة التحكم",
    "admin" := "المدير",
    "signIn" := "تسجيل الدخول",
    "signUp" := "إنشاء حساب",
    "signOut" := "تسجيل الخروج",
    "welcomeBack" := "مرحبا بعودتك",
    "createAccount" := "إنشاء حساب",
    "email" := "البريد الإلكتروني",
    "password" := "كلمة المرور",
    "fullName" := "الاسم الكامل",
    "phone" := "الهاتف",
    "accountType" := "نوع الحساب",
    "guest" := "ضيف",
    "hotelOwner" := "صاحب فندق",
    "luxuryAwaits" := "الفخامة بانتظارك",
    "yourPerfectStay" := "إقامتك المثالية",
    "discoverHotels" := "اكتشف فنادق استثنائية وأنشئ ذكريات لا تنسى",
    "searchHotels" := "ابحث عن الفنادق",
    "city" := "المدينة",
    "checkIn" := "تسجيل الوصول"
  ]

  const Arabic2: map<string, string> := map[
    "checkOut" := "تسجيل المغادرة",
    "guests" := "الضيوف",
    "featuredHotels" := "الفنادق المميزة",
    "viewAllHotels" := "عرض جميع الفنادق",
    "viewDetails" := "عرض التفاصيل",
    "bookNow" := "احجز الآن",
    "whyChooseHotex" := "لماذا تختار هوتكس",
    "secureBooking" := "حجز آمن",
    "bestPriceGuarantee" := "ضمان أفضل سعر",
    "support247" := "دعم على مدار الساعة",
    "instantConfirmation" := "تأكيد فوري",
    "myHotels" := "فنادقي",
    "addHotel" := "إضافة فندق",
    "manageRooms" := "إدارة الغرف",
    "hotelName" := "اسم الفندق",
    "description" := "الوصف",
    "address" := "العنوان",
    "country" := "الدولة",
    "starRating" := "تصنيف النجوم",
    "status" := "الحالة",
    "actions" := "الإجراءات",
    "edit" := "تعديل",
    "delete" := "حذف",
    "save" := "حفظ"
  ]

  const Arabic3: map<string, string> := map[
    "cancel" := "إلغاء",
    "bookingManagement" := "إدارة الحجوزات",
    "userManagement" := "إدارة المستخدمين",
    "hotelManagement" := "إدارة الفنادق",
    "analytics" := "التحليلات",
    "totalRevenue" := "إجمالي الإيرادات",
    "totalBookings" := "إجمالي الحجوزات",
    "activeHotels" := "الفنادق النشطة",
    "totalUsers" := "إجمالي المستخدمين",
    "pending" := "قيد الانتظار",
    "confirmed" := "مؤكد",
    "checkedIn" := "تم تسجيل الوصول",
    "completed" := "مكتمل",
    "canceled" := "ملغى",
    "roomTitle" := "عنوان الغرفة",
    "pricePerNight" := "السعر لكل ليلة",
    "maxGuests" := "الحد الأقصى للضيوف",
    "available" := "متاح",
    "notAvailable" := "غير متاح",
    "totalPrice" := "السعر الإجمالي",
    "specialRequests" := "الطلبات الخاصة",
    "bookingDetails" := "تفاصيل الحجز",
    "guestName" := "اسم الضيف",
    "nights" := "ليالي"
  ]

  const Arabic4: map<string, string> := map[
    "perNight" := "لكل ليلة",
    "createBooking" := "إنشاء حجز",
    "selectRoom" := "اختر غرفة",
    "confirmBooking" := "تأكيد الحجز",
    "bookingSuccess" := "تم تأكيد الحجز بنجاح!",
    "bookingError" := "فشل إنشاء الحجز",
    "loading" := "جاري التحميل...",
    "noResults" := "لم يتم العثور على نتائج",
    "searchPlaceholder" := "ابحث حسب اسم الفندق أو المدينة أو الدولة...",
    "filters" := "الفلاتر",
    "sortBy" := "ترتيب حسب",
    "highestRated" := "الأعلى تقييمًا",
    "nameAZ" := "الاسم (أ-ي)",
    "minRating" := "الحد الأدنى للتقييم",
    "anyRating" := "أي تقييم",
    "starCategory" := "فئة النجوم",
    "anyCategory" := "أي فئة",
    "found" := "تم العثور على",
    "hotel" := "فندق",
    "role" := "الدور",
    "client" := "عميل",
    "owner" := "مالك",
    "createdAt" := "تاريخ الإنشاء",
    "updatedAt" := "تاريخ التحديث"
  ]

  /** `translations[language]`: only "en" and "ar" have a table. Names a
      JavaScript object inherits (such as "constructor") are not modelled. */
  function TableFor(language: string): (table: Option<map<string, string>>)
    ensures table.Some? <==> language == "en" || language == "ar"
  {
    if language == "en" then Some(English)
    else if language == "ar" then Some(Arabic)
    else None
  }

  /** The lookup falls back to the key: no entry, or an empty one. */
  predicate FallsBack(table: map<string, string>, key: string)
  {
    key !in table || table[key] == ""
  }

  /** `t(key)`. `None` stands for the TypeError thrown when the current
      language has no table. */
  function Translate(language: string, key: string): (r: Option<string>)
    ensures r.None? <==> TableFor(language).None?
    ensures r.Some? && !FallsBack(TableFor(language).value, key) ==> r.value == TableFor(language).value[key]
    ensures r.Some? && FallsBack(TableFor(language).value, key) ==> r.value == key
  {
    match TableFor(language)
    case None => None
    case Some(table) => Some(if key in table && table[key] != "" then table[key] else key)
  }

  /** The two tables agree part by part on their keys. */
  lemma KeysAgree1()
    ensures English1.Keys == Arabic1.Keys
  {
  }

  lemma KeysAgree2()
    ensures English2.Keys == Arabic2.Keys
  {
  }

  lemma KeysAgree3()
    ensures English3.Keys == Arabic3.Keys
  {
  }

  lemma KeysAgree4()
    ensures English4.Keys == Arabic4.Keys
  {
  }

  /** No part of either table holds an empty entry. */
  lemma EnglishFilled1()
    ensures forall k :: k in English1 ==> English1[k] != ""
  {
  }

  lemma EnglishFilled2()
    ensures forall k :: k in English2 ==> English2[k] != ""
  {
  }

  lemma EnglishFilled3()
    ensures forall k :: k in English3 ==> English3[k] != ""
  {
  }

  lemma EnglishFilled4()
    ensures forall k :: k in English4 ==> English4[k] != ""
  {
  }

  lemma ArabicFilled1()
    ensures forall k :: k in Arabic1 ==> Arabic1[k] != ""
  {
  }

  lemma ArabicFilled2()
    ensures forall k :: k in Arabic2 ==> Arabic2[k] != ""
  {
  }

  lemma ArabicFilled3()
    ensures forall k :: k in Arabic3 ==> Arabic3[k] != ""
  {
  }

  lemma ArabicFilled4()
    ensures forall k :: k in Arabic4 ==> Arabic4[k] != ""
  {
  }

  /** Both tables define the same keys. */
  lemma SameKeys()
    ensures English.Keys == Arabic.Keys
  {
    KeysAgree1();
    KeysAgree2();
    KeysAgree3();
    KeysAgree4();
    UnionKeepsKeys(English1, English2, Arabic1, Arabic2);
    UnionKeepsKeys(English1 + English2, English3, Arabic1 + Arabic2, Arabic3);
    UnionKeepsKeys(English1 + English2 + English3, English4, Arabic1 + Arabic2 + Arabic3, Arabic4);
  }

  /** Unions of tables with the same keys have the same keys. */
  lemma UnionKeepsKeys(a: map<string, string>, b: map<string, string>, c: map<string, string>, d: map<string, string>)
    requires a.Keys == c.Keys && b.Keys == d.Keys
    ensures (a + b).Keys == (c + d).Keys
  {
  }

  /** A union of two tables without empty entries has none either. */
  lemma UnionKeepsNonEmpty(a: map<string, string>, b: map<string, string>)
    requires forall k :: k in a ==> a[k] != ""
    requires forall k :: k in b ==> b[k] != ""
    ensures forall k :: k in a + b ==> (a + b)[k] != ""
  {
  }

  /** No entry of either table is empty, so the fallback happens exactly
      for the keys the tables lack. */
  lemma NoEmptyEntries()
    ensures forall k :: k in English ==> English[k] != ""
    ensures forall k :: k in Arabic ==> Arabic[k] != ""
  {
    NoEmptyEnglish();
    NoEmptyArabic();
  }

  lemma NoEmptyEnglish()
    ensures forall k :: k in English ==> English[k] != ""
  {
    EnglishFilled123();
    EnglishFilled4();
    UnionKeepsNonEmpty(English1 + English2 + English3, English4);
  }

  lemma EnglishFilled123()
    ensures forall k :: k in English1 + English2 + English3 ==> (English1 + English2 + English3)[k] != ""
  {
    EnglishFilled12();
    EnglishFilled3();
    UnionKeepsNonEmpty(English1 + English2, English3);
  }

  lemma EnglishFilled12()
    ensures forall k :: k in English1 + English2 ==> (English1 + English2)[k] != ""
  {
    EnglishFilled1();
    EnglishFilled2();
    UnionKeepsNonEmpty(English1, English2);
  }

  lemma NoEmptyArabic()
    ensures forall k :: k in Arabic ==> Arabic[k] != ""
  {
    ArabicFilled123();
    ArabicFilled4();
    UnionKeepsNonEmpty(Arabic1 + Arabic2 + Arabic3, Arabic4);
  }

  lemma ArabicFilled123()
    ensures forall k :: k in Arabic1 + Arabic2 + Arabic3 ==> (Arabic1 + Arabic2 + Arabic3)[k] != ""
  {
    ArabicFilled12();
    ArabicFilled3();
    UnionKeepsNonEmpty(Arabic1 + Arabic2, Arabic3);
  }

  lemma ArabicFilled12()
    ensures forall k :: k in Arabic1 + Arabic2 ==> (Arabic1 + Arabic2)[k] != ""
  {
    ArabicFilled1();
    ArabicFilled2();
    UnionKeepsNonEmpty(Arabic1, Arabic2);
  }

  /** A key falls back to itself in English exactly when it does in Arabic. */
  lemma FallbackAgrees(key: string)
    ensures FallsBack(English, key) <==> FallsBack(Arabic, key)
    ensures FallsBack(English, key) <==> key !in English
  {
    SameKeys();
    NoEmptyEntries();
    FallbackOnlyWhenMissing(English, Arabic, key);
  }

  /** For tables with the same keys and no empty entries, a key falls back
      in one exactly when it falls back in the other, and exactly when it
      is missing. */
  lemma FallbackOnlyWhenMissing(e: map<string, string>, a: map<string, string>, key: string)
    requires e.Keys == a.Keys
    requires forall k :: k in e ==> e[k] != ""
    requires forall k :: k in a ==> a[k] != ""
    ensures FallsBack(e, key) <==> FallsBack(a, key)
    ensures FallsBack(e, key) <==> key !in e
  {
  }

  /** Where the status keys sit: the statuses are all in the third part,
      none is in the fourth, and "checked_in" is in no part. */
  lemma EnglishStatusKeys1()
    ensures "checked_in" !in English1
  {
  }

  lemma EnglishStatusKeys2()
    ensures "checked_in" !in English2
  {
  }

  lemma EnglishStatusKeys3()
    ensures "checked_in" !in English3
    ensures "pending" in English3 && English3["pending"] != "" && English3["pending"] != "pending"
    ensures "canceled" in English3 && English3["canceled"] != "" && English3["canceled"] != "canceled"
  {
  }

  lemma EnglishStatusKeys4()
    ensures "checked_in" !in English4 && "pending" !in English4 && "canceled" !in English4
  {
  }

  lemma EnglishStatusEntries()
    ensures FallsBack(English, "checked_in")
    ensures !FallsBack(English, "pending") && English["pending"] != "pending"
    ensures !FallsBack(English, "canceled") && English["canceled"] != "canceled"
  {
    EnglishStatusKeys1();
    EnglishStatusKeys2();
    EnglishStatusKeys3();
    EnglishStatusKeys4();
  }

  lemma ArabicStatusKeys1()
    ensures "checked_in" !in Arabic1
  {
  }

  lemma ArabicStatusKeys2()
    ensures "checked_in" !in Arabic2
  {
  }

  lemma ArabicStatusKeys3()
    ensures "checked_in" !in Arabic3
    ensures "pending" in Arabic3 && Arabic3["pending"] != "" && Arabic3["pending"] != "pending"
    ensures "canceled" in Arabic3 && Arabic3["canceled"] != "" && Arabic3["canceled"] != "canceled"
  {
  }

  lemma ArabicStatusKeys4()
    ensures "checked_in" !in Arabic4 && "pending" !in Arabic4 && "canceled" !in Arabic4
  {
  }

  lemma ArabicStatusEntries()
    ensures FallsBack(Arabic, "checked_in")
    ensures !FallsBack(Arabic, "pending") && Arabic["pending"] != "pending"
    ensures !FallsBack(Arabic, "canceled") && Arabic["canceled"] != "canceled"
  {
    ArabicStatusKeys1();
    ArabicStatusKeys2();
    ArabicStatusKeys3();
    ArabicStatusKeys4();
  }

  /** The list page passes the raw status to `t`. The pending and canceled
      statuses have an entry, but "checked_in" does not (the tables spell
      it "checkedIn"), so that badge shows the raw value in both languages. */
  lemma StatusLabels(language: string)
    requires language == "en" || language == "ar"
    ensures Translate(language, StatusName(CheckedIn)) == Some("checked_in")
    ensures Translate(language, StatusName(Pending)) != Some("pending")
    ensures Translate(language, StatusName(Canceled)) != Some("canceled")
  {
    if language == "en" {
      EnglishCheckedInLabel(language);
      EnglishPendingLabel(language);
      EnglishCanceledLabel(language);
    } else {
      ArabicCheckedInLabel(language);
      ArabicPendingLabel(language);
      ArabicCanceledLabel(language);
    }
  }

  lemma EnglishSelected(language: string)
    requires language == "en"
    ensures TableFor(language) == Some(English)
  {
  }

  lemma ArabicSelected(language: string)
    requires language == "ar"
    ensures TableFor(language) == Some(Arabic)
  {
  }

  lemma EnglishCheckedInLabel(language: string)
    requires language == "en"
    ensures Translate(language, "checked_in") == Some("checked_in")
  {
    EnglishStatusEntries();
    EnglishSelected(language);
  }

  lemma EnglishPendingLabel(language: string)
    requires language == "en"
    ensures Translate(language, "pending") != Some("pending")
  {
    EnglishStatusEntries();
    EnglishSelected(language);
  }

  lemma EnglishCanceledLabel(language: string)
    requires language == "en"
    ensures Translate(language, "canceled") != Some("canceled")
  {
    EnglishStatusEntries();
    EnglishSelected(language);
  }

  lemma ArabicCheckedInLabel(language: string)
    requires language == "ar"
    ensures Translate(language, "checked_in") == Some("checked_in")
  {
    ArabicStatusEntries();
    ArabicSelected(language);
  }

  lemma ArabicPendingLabel(language: string)
    requires language == "ar"
    ensures Translate(language, "pending") != Some("pending")
  {
    ArabicStatusEntries();
    ArabicSelected(language);
  }

  lemma ArabicCanceledLabel(language: string)
    requires language == "ar"
    ensures Translate(language, "canceled") != Some("canceled")
  {
    ArabicStatusEntries();
    ArabicSelected(language);
  }

  /** `dir`: right-to-left for Arabic only. */
  function Dir(language: string): (d: string)
    ensures d == "rtl" <==> language == "ar"
    ensures d == "ltr" <==> language != "ar"
  {
    if language == "ar" then "rtl" else "ltr"
  }

  /** The language on start-up: the stored value when there is a non-empty
      one, whatever it is, and English otherwise. */
  function InitialLanguage(stored: Option<string>): (language: string)
    ensures language != ""
    ensures stored.Some? && stored.value != "" ==> language == stored.value
    ensures stored.None? || stored.value == "" ==> language == "en"
  {
    if stored.Some? && stored.value != "" then stored.value else "en"
  }

  /** A stored value that is not a language is taken as the language, and
      every lookup then fails. */
  lemma ForeignStoredValue(stored: string, key: string)
    requires stored != "" && stored != "en" && stored != "ar"
    ensures Translate(InitialLanguage(Some(stored)), key) == None
    ensures Dir(InitialLanguage(Some(stored))) == "ltr"
  {
  }

  /** The provider's state: the current language and the value kept under
      the "language" key of browser storage. */
  class LanguageProvider {
    var language: string
    var stored: Option<string>

    constructor(stored: Option<string>)
      ensures language == InitialLanguage(stored) && this.stored == stored
    {
      language := InitialLanguage(stored);
      this.stored := stored;
    }

    /** `setLanguage`: switches the language and stores the same value. */
    method SetLanguage(lang: string)
      requires lang == "en" || lang == "ar"
      modifies this
      ensures language == lang && stored == Some(lang)
      ensures InitialLanguage(stored) == language
    {
      language := lang;
      stored := Some(lang);
    }

    /** `t` bound to the current language. */
    function T(key: string): (r: Option<string>)
      reads this
      ensures (language == "en" || language == "ar") <==> r.Some?
      ensures r.Some? && !FallsBack(TableFor(language).value, key) ==> r.value == TableFor(language).value[key]
      ensures r.Some? && FallsBack(TableFor(language).value, key) ==> r.value == key
    {
      Translate(language, key)
    }

    /** `dir` for the current language. */
    function Direction(): (d: string)
      reads this
      ensures d == "rtl" <==> language == "ar"
    {
      Dir(language)
    }
  }
}

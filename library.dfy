/**
 * The fragment table of the generator (`componentLibrary`): for each (type, variant)
 * pair its markup, its stylesheet, and optionally a script and backend code.
 *
 * Markup is kept as pieces (see `Pieces`); its literal text is spelled in chunks so that
 * each chunk's freedom from opening braces is a separate small fact. Stylesheets and
 * scripts are copied verbatim.
 */
module Library {
  import opened Wrappers
  import opened Strings
  import opened Template
  import opened Pieces

  /** The server-side code a fragment brings with it. */
  datatype BackendCode = BackendCode(route: string, model: string)

  datatype Fragment = Fragment(html: seq<Piece>, css: string, js: Option<string>, backend: Option<BackendCode>)

  // The markup of the fragment table, as pieces; css, js and backend code verbatim.
  const NavC0: LitText := "\n        <nav class=\"nav"
  const NavC1: LitText := "bar\">\n          <div cla"
  const NavC2: LitText := "ss=\"nav-container\">\n    "
  const NavC3: LitText := "        <div class=\"nav-"
  const NavC4: LitText := "logo\">"
  const NavS0: LitText := NavC0 + NavC1 + NavC2 + NavC3 + NavC4
  const NavC5: LitText := "</div>\n            <ul c"
  const NavC6: LitText := "lass=\"nav-menu\">\n       "
  const NavC7: LitText := "       "
  const NavS1: LitText := NavC5 + NavC6 + NavC7
  const NavC8: LitText := "\n              <li class"
  const NavC9: LitText := "=\"nav-item\"><a href=\""
  const NavS2: LitText := NavC8 + NavC9
  const NavC10: LitText := "\" class=\"nav-link\">"
  const NavS3: LitText := NavC10
  const NavC11: LitText := "</a></li>\n              "
  const NavS4: LitText := NavC11
  const NavC12: LitText := "\n            </ul>\n     "
  const NavC13: LitText := "       <div class=\"nav-t"
  const NavC14: LitText := "oggle\">\n              <s"
  const NavC15: LitText := "pan></span>\n            "
  const NavC16: LitText := "  <span></span>\n        "
  const NavC17: LitText := "      <span></span>\n    "
  const NavC18: LitText := "        </div>\n         "
  const NavC19: LitText := " </div>\n        </nav>\n "
  const NavC20: LitText := "     "
  const NavS5G2: LitText := NavC12 + NavC13 + NavC14 + NavC15 + NavC16 + NavC17
  const NavS5G3: LitText := NavC18 + NavC19 + NavC20
  const NavS5: LitText := NavS5G2 + NavS5G3

  const NavbarHead: seq<Piece> := [Lit(NavS0), Slot("siteName"), Lit(NavS1)]
  const NavbarBody: seq<Piece> := [Lit(NavS2), Slot("href"), Lit(NavS3), Slot("text"), Lit(NavS4)]
  const NavbarTail: seq<Piece> := [Lit(NavS5)]
  /** navbar/modern: a logo, then one menu item per element of `navLinks`. */
  const NavbarHtml: seq<Piece> := NavbarHead + [Open("navLinks")] + NavbarBody + [Close("navLinks")] + NavbarTail
  const NavbarCss: string := @"
        .navbar {
          background: #ffffff;
          box-shadow: 0 2px 10px rgba(0,0,0,0.1);
          position: sticky;
          top: 0;
          z-index: 1000;
        }
        .nav-container {
          max-width: 1200px;
          margin: 0 auto;
          padding: 1rem 2rem;
          display: flex;
          justify-content: space-between;
          align-items: center;
        }
        .nav-logo {
          font-size: 1.5rem;
          font-weight: bold;
          color: #333;
        }
        .nav-menu {
          display: flex;
          list-style: none;
          gap: 2rem;
          margin: 0;
          padding: 0;
        }
        .nav-link {
          text-decoration: none;
          color: #555;
          transition: color 0.3s;
        }
        .nav-link:hover {
          color: #007bff;
        }
        .nav-toggle {
          display: none;
          flex-direction: column;
          cursor: pointer;
        }
        .nav-toggle span {
          width: 25px;
          height: 3px;
          background: #333;
          margin: 3px 0;
          transition: 0.3s;
        }
        @media (max-width: 768px) {
          .nav-menu {
            position: fixed;
            left: -100%;
            top: 70px;
            flex-direction: column;
            background-color: #fff;
            width: 100%;
            text-align: center;
            transition: 0.3s;
            box-shadow: 0 10px 27px rgba(0,0,0,0.05);
            padding: 2rem 0;
          }
          .nav-menu.active {
            left: 0;
          }
          .nav-toggle {
            display: flex;
          }
        }
      "
  const NavbarJs: string := @"
        document.querySelector('.nav-toggle').addEventListener('click', function() {
          document.querySelector('.nav-menu').classList.toggle('active');
        });
      "
  const HeroCC0: LitText := "\n        <section class="
  const HeroCC1: LitText := "\"hero\">\n          <div c"
  const HeroCC2: LitText := "lass=\"hero-container\">\n "
  const HeroCC3: LitText := "           <h1 class=\"he"
  const HeroCC4: LitText := "ro-title\">"
  const HeroCS0: LitText := HeroCC0 + HeroCC1 + HeroCC2 + HeroCC3 + HeroCC4
  const HeroCC5: LitText := "</h1>\n            <p cla"
  const HeroCC6: LitText := "ss=\"hero-subtitle\">"
  const HeroCS1: LitText := HeroCC5 + HeroCC6
  const HeroCC7: LitText := "</p>\n            <div cl"
  const HeroCC8: LitText := "ass=\"hero-cta\">\n        "
  const HeroCC9: LitText := "      "
  const HeroCS2: LitText := HeroCC7 + HeroCC8 + HeroCC9
  const HeroCC10: LitText := "\n              <a href=\""
  const HeroCS3: LitText := HeroCC10
  const HeroCC11: LitText := "\" class=\"btn btn-"
  const HeroCS4: LitText := HeroCC11
  const HeroCC12: LitText := "\">"
  const HeroCS5: LitText := HeroCC12
  const HeroCC13: LitText := "</a>\n              "
  const HeroCS6: LitText := HeroCC13
  const HeroCC14: LitText := "\n            </div>\n    "
  const HeroCC15: LitText := "      </div>\n        </s"
  const HeroCC16: LitText := "ection>\n      "
  const HeroCS7: LitText := HeroCC14 + HeroCC15 + HeroCC16

  const HeroCenteredHead: seq<Piece> := [Lit(HeroCS0), Slot("title"), Lit(HeroCS1), Slot("subtitle"), Lit(HeroCS2)]
  const HeroCenteredBody: seq<Piece> := [Lit(HeroCS3), Slot("href"), Lit(HeroCS4), Slot("style"), Lit(HeroCS5), Slot("text"), Lit(HeroCS6)]
  const HeroCenteredTail: seq<Piece> := [Lit(HeroCS7)]
  /** hero/centered: a headline, a subtitle and one link per element of `buttons`. */
  const HeroCenteredHtml: seq<Piece> := HeroCenteredHead + [Open("buttons")] + HeroCenteredBody + [Close("buttons")] + HeroCenteredTail
  const HeroCenteredCss: string := @"
        .hero {
          background: linear-gradient(135deg, #667eea 0%, #764ba2 100%);
          color: white;
          padding: 8rem 2rem;
          text-align: center;
        }
        .hero-container {
          max-width: 800px;
          margin: 0 auto;
        }
        .hero-title {
          font-size: 3rem;
          margin-bottom: 1rem;
          font-weight: 700;
        }
        .hero-subtitle {
          font-size: 1.25rem;
          margin-bottom: 2rem;
          opacity: 0.9;
        }
        .hero-cta {
          display: flex;
          gap: 1rem;
          justify-content: center;
          flex-wrap: wrap;
        }
        @media (max-width: 768px) {
          .hero {
            padding: 4rem 1rem;
          }
          .hero-title {
            font-size: 2rem;
          }
          .hero-subtitle {
            font-size: 1rem;
          }
        }
      "
  const HeroIC0: LitText := "\n        <section class="
  const HeroIC1: LitText := "\"hero-image\">\n          "
  const HeroIC2: LitText := "<div class=\"hero-content"
  const HeroIC3: LitText := "\">\n            <div clas"
  const HeroIC4: LitText := "s=\"hero-text\">\n         "
  const HeroIC5: LitText := "     <h1>"
  const HeroIS0: LitText := HeroIC0 + HeroIC1 + HeroIC2 + HeroIC3 + HeroIC4 + HeroIC5
  const HeroIC6: LitText := "</h1>\n              <p>"
  const HeroIS1: LitText := HeroIC6
  const HeroIC7: LitText := "</p>\n              <div "
  const HeroIC8: LitText := "class=\"hero-cta\">\n      "
  const HeroIC9: LitText := "          "
  const HeroIS2: LitText := HeroIC7 + HeroIC8 + HeroIC9
  const HeroIC10: LitText := "\n                <a href"
  const HeroIC11: LitText := "=\""
  const HeroIS3: LitText := HeroIC10 + HeroIC11
  const HeroIC12: LitText := "\" class=\"btn btn-"
  const HeroIS4: LitText := HeroIC12
  const HeroIC13: LitText := "\">"
  const HeroIS5: LitText := HeroIC13
  const HeroIC14: LitText := "</a>\n                "
  const HeroIS6: LitText := HeroIC14
  const HeroIC15: LitText := "\n              </div>\n  "
  const HeroIC16: LitText := "          </div>\n       "
  const HeroIC17: LitText := "     <div class=\"hero-vi"
  const HeroIC18: LitText := "sual\">\n              <im"
  const HeroIC19: LitText := "g src=\""
  const HeroIS7: LitText := HeroIC15 + HeroIC16 + HeroIC17 + HeroIC18 + HeroIC19
  const HeroIC20: LitText := "\" alt=\""
  const HeroIS8: LitText := HeroIC20
  const HeroIC21: LitText := "\">\n            </div>\n  "
  const HeroIC22: LitText := "        </div>\n        <"
  const HeroIC23: LitText := "/section>\n      "
  const HeroIS9: LitText := HeroIC21 + HeroIC22 + HeroIC23

  const HeroImageHead: seq<Piece> := [Lit(HeroIS0), Slot("title"), Lit(HeroIS1), Slot("subtitle"), Lit(HeroIS2)]
  const HeroImageBody: seq<Piece> := [Lit(HeroIS3), Slot("href"), Lit(HeroIS4), Slot("style"), Lit(HeroIS5), Slot("text"), Lit(HeroIS6)]
  const HeroImageTail: seq<Piece> := [Lit(HeroIS7), Slot("imageUrl"), Lit(HeroIS8), Slot("imageAlt"), Lit(HeroIS9)]
  /** hero/withImage: as hero/centered, with an image beside the text. */
  const HeroImageHtml: seq<Piece> := HeroImageHead + [Open("buttons")] + HeroImageBody + [Close("buttons")] + HeroImageTail
  const HeroImageCss: string := @"
        .hero-image {
          padding: 4rem 2rem;
          background: #f8f9fa;
        }
        .hero-content {
          max-width: 1200px;
          margin: 0 auto;
          display: grid;
          grid-template-columns: 1fr 1fr;
          gap: 4rem;
          align-items: center;
        }
        .hero-text h1 {
          font-size: 2.5rem;
          margin-bottom: 1rem;
          color: #333;
        }
        .hero-text p {
          font-size: 1.1rem;
          color: #666;
          margin-bottom: 2rem;
        }
        .hero-visual img {
          width: 100%;
          border-radius: 10px;
          box-shadow: 0 10px 40px rgba(0,0,0,0.1);
        }
        @media (max-width: 768px) {
          .hero-content {
            grid-template-columns: 1fr;
            gap: 2rem;
          }
          .hero-text h1 {
            font-size: 1.8rem;
          }
        }
      "
  const FeatC0: LitText := "\n        <section class="
  const FeatC1: LitText := "\"features\">\n          <d"
  const FeatC2: LitText := "iv class=\"features-conta"
  const FeatC3: LitText := "iner\">\n            <h2 c"
  const FeatC4: LitText := "lass=\"section-title\">"
  const FeatS0: LitText := FeatC0 + FeatC1 + FeatC2 + FeatC3 + FeatC4
  const FeatC5: LitText := "</h2>\n            <p cla"
  const FeatC6: LitText := "ss=\"section-subtitle\">"
  const FeatS1: LitText := FeatC5 + FeatC6
  const FeatC7: LitText := "</p>\n            <div cl"
  const FeatC8: LitText := "ass=\"features-grid\">\n   "
  const FeatC9: LitText := "           "
  const FeatS2: LitText := FeatC7 + FeatC8 + FeatC9
  const FeatC10: LitText := "\n              <div clas"
  const FeatC11: LitText := "s=\"feature-card\">\n      "
  const FeatC12: LitText := "          <div class=\"fe"
  const FeatC13: LitText := "ature-icon\">"
  const FeatS3: LitText := FeatC10 + FeatC11 + FeatC12 + FeatC13
  const FeatC14: LitText := "</div>\n                <"
  const FeatC15: LitText := "h3>"
  const FeatS4: LitText := FeatC14 + FeatC15
  const FeatC16: LitText := "</h3>\n                <p"
  const FeatC17: LitText := ">"
  const FeatS5: LitText := FeatC16 + FeatC17
  const FeatC18: LitText := "</p>\n              </div"
  const FeatC19: LitText := ">\n              "
  const FeatS6: LitText := FeatC18 + FeatC19
  const FeatC20: LitText := "\n            </div>\n    "
  const FeatC21: LitText := "      </div>\n        </s"
  const FeatC22: LitText := "ection>\n      "
  const FeatS7: LitText := FeatC20 + FeatC21 + FeatC22

  const FeaturesHead: seq<Piece> := [Lit(FeatS0), Slot("title"), Lit(FeatS1), Slot("subtitle"), Lit(FeatS2)]
  const FeaturesBody: seq<Piece> := [Lit(FeatS3), Slot("icon"), Lit(FeatS4), Slot("title"), Lit(FeatS5), Slot("description"), Lit(FeatS6)]
  const FeaturesTail: seq<Piece> := [Lit(FeatS7)]
  /** features/grid: a section title and subtitle, then one card per element of `items`. */
  const FeaturesHtml: seq<Piece> := FeaturesHead + [Open("items")] + FeaturesBody + [Close("items")] + FeaturesTail
  const FeaturesCss: string := @"
        .features {
          padding: 5rem 2rem;
          background: #ffffff;
        }
        .features-container {
          max-width: 1200px;
          margin: 0 auto;
        }
        .section-title {
          text-align: center;
          font-size: 2.5rem;
          margin-bottom: 1rem;
          color: #333;
        }
        .section-subtitle {
          text-align: center;
          color: #666;
          margin-bottom: 3rem;
          font-size: 1.1rem;
        }
        .features-grid {
          display: grid;
          grid-template-columns: repeat(auto-fit, minmax(280px, 1fr));
          gap: 2rem;
        }
        .feature-card {
          padding: 2rem;
          background: #f8f9fa;
          border-radius: 10px;
          text-align: center;
          transition: transform 0.3s, box-shadow 0.3s;
        }
        .feature-card:hover {
          transform: translateY(-5px);
          box-shadow: 0 10px 30px rgba(0,0,0,0.1);
        }
        .feature-icon {
          font-size: 3rem;
          margin-bottom: 1rem;
        }
        .feature-card h3 {
          margin-bottom: 1rem;
          color: #333;
        }
        .feature-card p {
          color: #666;
          line-height: 1.6;
        }
      "
  const ContC0: LitText := "\n        <section class="
  const ContC1: LitText := "\"contact\">\n          <di"
  const ContC2: LitText := "v class=\"contact-contain"
  const ContC3: LitText := "er\">\n            <h2 cla"
  const ContC4: LitText := "ss=\"section-title\">"
  const ContS0: LitText := ContC0 + ContC1 + ContC2 + ContC3 + ContC4
  const ContC5: LitText := "</h2>\n            <p cla"
  const ContC6: LitText := "ss=\"section-subtitle\">"
  const ContS1: LitText := ContC5 + ContC6
  const ContC7: LitText := "</p>\n            <form c"
  const ContC8: LitText := "lass=\"contact-form\" id=\""
  const ContC9: LitText := "contactForm\">\n          "
  const ContC10: LitText := "    <div class=\"form-gro"
  const ContC11: LitText := "up\">\n                <la"
  const ContC12: LitText := "bel for=\"name\">Name</lab"
  const ContC13: LitText := "el>\n                <inp"
  const ContC14: LitText := "ut type=\"text\" id=\"name\""
  const ContC15: LitText := " name=\"name\" required>\n "
  const ContC16: LitText := "             </div>\n    "
  const ContC17: LitText := "          <div class=\"fo"
  const ContC18: LitText := "rm-group\">\n             "
  const ContC19: LitText := "   <label for=\"email\">Em"
  const ContC20: LitText := "ail</label>\n            "
  const ContC21: LitText := "    <input type=\"email\" "
  const ContC22: LitText := "id=\"email\" name=\"email\" "
  const ContC23: LitText := "required>\n              "
  const ContC24: LitText := "</div>\n              <di"
  const ContC25: LitText := "v class=\"form-group\">\n  "
  const ContC26: LitText := "              <label for"
  const ContC27: LitText := "=\"subject\">Subject</labe"
  const ContC28: LitText := "l>\n                <inpu"
  const ContC29: LitText := "t type=\"text\" id=\"subjec"
  const ContC30: LitText := "t\" name=\"subject\" requir"
  const ContC31: LitText := "ed>\n              </div>"
  const ContC32: LitText := "\n              <div clas"
  const ContC33: LitText := "s=\"form-group\">\n        "
  const ContC34: LitText := "        <label for=\"mess"
  const ContC35: LitText := "age\">Message</label>\n   "
  const ContC36: LitText := "             <textarea i"
  const ContC37: LitText := "d=\"message\" name=\"messag"
  const ContC38: LitText := "e\" rows=\"5\" required></t"
  const ContC39: LitText := "extarea>\n              <"
  const ContC40: LitText := "/div>\n              <but"
  const ContC41: LitText := "ton type=\"submit\" class="
  const ContC42: LitText := "\"btn btn-primary\">Send M"
  const ContC43: LitText := "essage</button>\n        "
  const ContC44: LitText := "    </form>\n            "
  const ContC45: LitText := "<div id=\"formMessage\" cl"
  const ContC46: LitText := "ass=\"form-message\"></div"
  const ContC47: LitText := ">\n          </div>\n     "
  const ContC48: LitText := "   </section>\n      "
  const ContS2G2: LitText := ContC7 + ContC8 + ContC9 + ContC10 + ContC11 + ContC12
  const ContS2G3: LitText := ContC13 + ContC14 + ContC15 + ContC16 + ContC17 + ContC18
  const ContS2G4: LitText := ContC19 + ContC20 + ContC21 + ContC22 + ContC23 + ContC24
  const ContS2G5: LitText := ContC25 + ContC26 + ContC27 + ContC28 + ContC29 + ContC30
  const ContS2G6: LitText := ContC31 + ContC32 + ContC33 + ContC34 + ContC35 + ContC36
  const ContS2G7: LitText := ContC37 + ContC38 + ContC39 + ContC40 + ContC41 + ContC42
  const ContS2G8: LitText := ContC43 + ContC44 + ContC45 + ContC46 + ContC47 + ContC48
  const ContS2G9: LitText := ContS2G2 + ContS2G3 + ContS2G4 + ContS2G5 + ContS2G6 + ContS2G7
  const ContS2G10: LitText := ContS2G8
  const ContS2: LitText := ContS2G9 + ContS2G10

  /** contactForm/standard: a title, a subtitle and a fixed four-field form; no block. */
  const ContactHtml: seq<Piece> := [Lit(ContS0), Slot("title"), Lit(ContS1), Slot("subtitle"), Lit(ContS2)]
  const ContactCss: string := @"
        .contact {
          padding: 5rem 2rem;
          background: #f8f9fa;
        }
        .contact-container {
          max-width: 600px;
          margin: 0 auto;
        }
        .contact-form {
          background: white;
          padding: 2rem;
          border-radius: 10px;
          box-shadow: 0 5px 20px rgba(0,0,0,0.1);
        }
        .form-group {
          margin-bottom: 1.5rem;
        }
        .form-group label {
          display: block;
          margin-bottom: 0.5rem;
          color: #333;
          font-weight: 500;
        }
        .form-group input,
        .form-group textarea {
          width: 100%;
          padding: 0.75rem;
          border: 1px solid #ddd;
          border-radius: 5px;
          font-size: 1rem;
          transition: border-color 0.3s;
        }
        .form-group input:focus,
        .form-group textarea:focus {
          outline: none;
          border-color: #007bff;
        }
        .form-message {
          margin-top: 1rem;
          padding: 1rem;
          border-radius: 5px;
          display: none;
        }
        .form-message.success {
          background: #d4edda;
          color: #155724;
          display: block;
        }
        .form-message.error {
          background: #f8d7da;
          color: #721c24;
          display: block;
        }
      "
  const GalC0: LitText := "\n        <section class="
  const GalC1: LitText := "\"gallery\">\n          <di"
  const GalC2: LitText := "v class=\"gallery-contain"
  const GalC3: LitText := "er\">\n            <h2 cla"
  const GalC4: LitText := "ss=\"section-title\">"
  const GalS0: LitText := GalC0 + GalC1 + GalC2 + GalC3 + GalC4
  const GalC5: LitText := "</h2>\n            <div c"
  const GalC6: LitText := "lass=\"gallery-grid\">\n   "
  const GalC7: LitText := "           "
  const GalS1: LitText := GalC5 + GalC6 + GalC7
  const GalC8: LitText := "\n              <div clas"
  const GalC9: LitText := "s=\"gallery-item\">\n      "
  const GalC10: LitText := "          <img src=\""
  const GalS2: LitText := GalC8 + GalC9 + GalC10
  const GalC11: LitText := "\" alt=\""
  const GalS3: LitText := GalC11
  const GalC12: LitText := "\">\n                <div "
  const GalC13: LitText := "class=\"gallery-overlay\">"
  const GalC14: LitText := "\n                  <p>"
  const GalS4: LitText := GalC12 + GalC13 + GalC14
  const GalC15: LitText := "</p>\n                </d"
  const GalC16: LitText := "iv>\n              </div>"
  const GalC17: LitText := "\n              "
  const GalS5: LitText := GalC15 + GalC16 + GalC17
  const GalC18: LitText := "\n            </div>\n    "
  const GalC19: LitText := "      </div>\n        </s"
  const GalC20: LitText := "ection>\n      "
  const GalS6: LitText := GalC18 + GalC19 + GalC20

  const GalleryHead: seq<Piece> := [Lit(GalS0), Slot("title"), Lit(GalS1)]
  const GalleryBody: seq<Piece> := [Lit(GalS2), Slot("url"), Lit(GalS3), Slot("alt"), Lit(GalS4), Slot("caption"), Lit(GalS5)]
  const GalleryTail: seq<Piece> := [Lit(GalS6)]
  /** gallery/grid: a section title, then one tile per element of `images`. */
  const GalleryHtml: seq<Piece> := GalleryHead + [Open("images")] + GalleryBody + [Close("images")] + GalleryTail
  const GalleryCss: string := @"
        .gallery {
          padding: 5rem 2rem;
          background: #ffffff;
        }
        .gallery-container {
          max-width: 1200px;
          margin: 0 auto;
        }
        .gallery-grid {
          display: grid;
          grid-template-columns: repeat(auto-fit, minmax(300px, 1fr));
          gap: 1.5rem;
        }
        .gallery-item {
          position: relative;
          overflow: hidden;
          border-radius: 10px;
          cursor: pointer;
        }
        .gallery-item img {
          width: 100%;
          height: 300px;
          object-fit: cover;
          transition: transform 0.3s;
        }
        .gallery-item:hover img {
          transform: scale(1.1);
        }
        .gallery-overlay {
          position: absolute;
          bottom: 0;
          left: 0;
          right: 0;
          background: linear-gradient(transparent, rgba(0,0,0,0.8));
          color: white;
          padding: 2rem 1rem 1rem;
          transform: translateY(100%);
          transition: transform 0.3s;
        }
        .gallery-item:hover .gallery-overlay {
          transform: translateY(0);
        }
      "
  const FootC0: LitText := "\n        <footer class=\""
  const FootC1: LitText := "footer\">\n          <div "
  const FootC2: LitText := "class=\"footer-container\""
  const FootC3: LitText := ">\n            <div class"
  const FootC4: LitText := "=\"footer-content\">\n     "
  const FootC5: LitText := "         <div class=\"foo"
  const FootC6: LitText := "ter-section\">\n          "
  const FootC7: LitText := "      <h3>"
  const FootS0G2: LitText := FootC0 + FootC1 + FootC2 + FootC3 + FootC4 + FootC5
  const FootS0G3: LitText := FootC6 + FootC7
  const FootS0: LitText := FootS0G2 + FootS0G3
  const FootC8: LitText := "</h3>\n                <p"
  const FootC9: LitText := ">"
  const FootS1: LitText := FootC8 + FootC9
  const FootC10: LitText := "</p>\n              </div"
  const FootC11: LitText := ">\n              <div cla"
  const FootC12: LitText := "ss=\"footer-section\">\n   "
  const FootC13: LitText := "             <h4>Quick L"
  const FootC14: LitText := "inks</h4>\n              "
  const FootC15: LitText := "  <ul>\n                 "
  const FootC16: LitText := " "
  const FootS2G4: LitText := FootC10 + FootC11 + FootC12 + FootC13 + FootC14 + FootC15
  const FootS2G5: LitText := FootC16
  const FootS2: LitText := FootS2G4 + FootS2G5
  const FootC17: LitText := "\n                  <li><"
  const FootC18: LitText := "a href=\""
  const FootS3: LitText := FootC17 + FootC18
  const FootC19: LitText := "\">"
  const FootS4: LitText := FootC19
  const FootC20: LitText := "</a></li>\n              "
  const FootC21: LitText := "    "
  const FootS5: LitText := FootC20 + FootC21
  const FootC22: LitText := "\n                </ul>\n "
  const FootC23: LitText := "             </div>\n    "
  const FootC24: LitText := "          <div class=\"fo"
  const FootC25: LitText := "oter-section\">\n         "
  const FootC26: LitText := "       <h4>Contact</h4>\n"
  const FootC27: LitText := "                <p>"
  const FootS6: LitText := FootC22 + FootC23 + FootC24 + FootC25 + FootC26 + FootC27
  const FootC28: LitText := "</p>\n                <p>"
  const FootS7: LitText := FootC28
  const FootC29: LitText := "</p>\n              </div"
  const FootC30: LitText := ">\n            </div>\n   "
  const FootC31: LitText := "         <div class=\"foo"
  const FootC32: LitText := "ter-bottom\">\n           "
  const FootC33: LitText := "   <p>&copy; "
  const FootS8: LitText := FootC29 + FootC30 + FootC31 + FootC32 + FootC33
  const FootC34: LitText := " "
  const FootS9: LitText := FootC34
  const FootC35: LitText := ". All rights reserved.</"
  const FootC36: LitText := "p>\n            </div>\n  "
  const FootC37: LitText := "        </div>\n        <"
  const FootC38: LitText := "/footer>\n      "
  const FootS10: LitText := FootC35 + FootC36 + FootC37 + FootC38

  const FooterHead: seq<Piece> := [Lit(FootS0), Slot("siteName"), Lit(FootS1), Slot("description"), Lit(FootS2)]
  const FooterBody: seq<Piece> := [Lit(FootS3), Slot("href"), Lit(FootS4), Slot("text"), Lit(FootS5)]
  const FooterTail: seq<Piece> := [Lit(FootS6), Slot("contact.email"), Lit(FootS7), Slot("contact.phone"), Lit(FootS8), Slot("year"), Lit(FootS9), Slot("siteName"), Lit(FootS10)]
  /** footer/standard: name, description, one link per element of `links`, contact lines and year. */
  const FooterHtml: seq<Piece> := FooterHead + [Open("links")] + FooterBody + [Close("links")] + FooterTail
  const FooterCss: string := @"
        .footer {
          background: #2c3e50;
          color: white;
          padding: 3rem 2rem 1rem;
        }
        .footer-container {
          max-width: 1200px;
          margin: 0 auto;
        }
        .footer-content {
          display: grid;
          grid-template-columns: repeat(auto-fit, minmax(250px, 1fr));
          gap: 2rem;
          margin-bottom: 2rem;
        }
        .footer-section h3,
        .footer-section h4 {
          margin-bottom: 1rem;
        }
        .footer-section ul {
          list-style: none;
          padding: 0;
        }
        .footer-section a {
          color: #bdc3c7;
          text-decoration: none;
          transition: color 0.3s;
        }
        .footer-section a:hover {
          color: white;
        }
        .footer-bottom {
          text-align: center;
          padding-top: 2rem;
          border-top: 1px solid rgba(255,255,255,0.1);
        }
      "

  /** The contact script: it posts the form to `/api/contact`. */
  const ContactJsBefore: string := @"
        document.getElementById('contactForm').addEventListener('submit', async function(e) {
          e.preventDefault();
          const formData = {
            name: document.getElementById('name').value,
            email: document.getElementById('email').value,
            subject: document.getElementById('subject').value,
            message: document.getElementById('message').value
          };
          
          try {
            const response = await "
  const ContactFetch: string := "fetch('/api/contact'"
  const ContactJsAfter: string := @", {
              method: 'POST',
              headers: { 'Content-Type': 'application/json' },
              body: JSON.stringify(formData)
            });
            
            const messageDiv = document.getElementById('formMessage');
            if (response.ok) {
              messageDiv.className = 'form-message success';
              messageDiv.textContent = 'Message sent successfully!';
              document.getElementById('contactForm').reset();
            } else {
              messageDiv.className = 'form-message error';
              messageDiv.textContent = 'Failed to send message. Please try again.';
            }
          } catch (error) {
            document.getElementById('formMessage').className = 'form-message error';
            document.getElementById('formMessage').textContent = 'An error occurred. Please try again.';
          }
        });
      "
  const ContactJs: string := ContactJsBefore + ContactFetch + ContactJsAfter
  const ContactRoute: string := @"
router.post('/contact', async (req, res) => {
  try {
    const { name, email, subject, message } = req.body;
    
    // Validate input
    if (!name || !email || !subject || !message) {
      return res.status(400).json({ error: 'All fields are required' });
    }
    
    // Save to database
    const contact = new Contact({
      name,
      email,
      subject,
      message,
      submittedAt: new Date()
    });
    
    await contact.save();
    
    res.json({ success: true, message: 'Contact form submitted successfully' });
  } catch (error) {
    console.error('Contact form error:', error);
    res.status(500).json({ error: 'Failed to submit contact form' });
  }
});
        "
  const ContactModel: string := @"
const mongoose = require('mongoose');

const contactSchema = new mongoose.Schema({
  name: { type: String, required: true },
  email: { type: String, required: true },
  subject: { type: String, required: true },
  message: { type: String, required: true },
  submittedAt: { type: Date, default: Date.now }
});

module.exports = mongoose.model('Contact', contactSchema);
        "

  const ButtonsCss: string := @"
      .btn {
        padding: 0.75rem 2rem;
        border: none;
        border-radius: 5px;
        font-size: 1rem;
        cursor: pointer;
        text-decoration: none;
        display: inline-block;
        transition: all 0.3s;
      }
      .btn-primary {
        background: #007bff;
        color: white;
      }
      .btn-primary:hover {
        background: #0056b3;
        transform: translateY(-2px);
        box-shadow: 0 5px 15px rgba(0,123,255,0.3);
      }
      .btn-secondary {
        background: transparent;
        color: white;
        border: 2px solid white;
      }
      .btn-secondary:hover {
        background: white;
        color: #007bff;
      }
      .btn-outline {
        background: transparent;
        color: #007bff;
        border: 2px solid #007bff;
      }
      .btn-outline:hover {
        background: #007bff;
        color: white;
      }
    "
  const GlobalCss: string := @"
      * {
        margin: 0;
        padding: 0;
        box-sizing: border-box;
      }
      body {
        font-family: 'Segoe UI', Tahoma, Geneva, Verdana, sans-serif;
        line-height: 1.6;
        color: #333;
      }
      img {
        max-width: 100%;
        height: auto;
      }
      .container {
        max-width: 1200px;
        margin: 0 auto;
        padding: 0 2rem;
      }
    "

  const Navbar: Fragment := Fragment(NavbarHtml, NavbarCss, Some(NavbarJs), None)
  const HeroCentered: Fragment := Fragment(HeroCenteredHtml, HeroCenteredCss, None, None)
  const HeroImage: Fragment := Fragment(HeroImageHtml, HeroImageCss, None, None)
  const Features: Fragment := Fragment(FeaturesHtml, FeaturesCss, None, None)
  const ContactForm: Fragment :=
    Fragment(ContactHtml, ContactCss, Some(ContactJs), Some(BackendCode(ContactRoute, ContactModel)))
  const Gallery: Fragment := Fragment(GalleryHtml, GalleryCss, None, None)
  const Footer: Fragment := Fragment(FooterHtml, FooterCss, None, None)

  /** The (type, variant) pairs the table defines. */
  predicate Defined(kind: string, variant: string)
  {
    (kind == "navbar" && variant == "modern") ||
    (kind == "hero" && (variant == "centered" || variant == "withImage")) ||
    (kind == "features" && variant == "grid") ||
    (kind == "contactForm" && variant == "standard") ||
    (kind == "gallery" && variant == "grid") ||
    (kind == "footer" && variant == "standard")
  }

  /**
   * `componentLibrary[type]?.[variant]`. Only the navbar and the contact form carry a
   * script, and only the contact form carries backend code.
   */
  function Find(kind: string, variant: string): (r: Option<Fragment>)
    ensures r.Some? <==> Defined(kind, variant)
    ensures r.Some? ==> (r.value.js.Some? <==> kind == "navbar" || kind == "contactForm")
    ensures r.Some? ==> (r.value.backend.Some? <==> kind == "contactForm")
  {
    if kind == "navbar" && variant == "modern" then Some(Navbar)
    else if kind == "hero" && variant == "centered" then Some(HeroCentered)
    else if kind == "hero" && variant == "withImage" then Some(HeroImage)
    else if kind == "features" && variant == "grid" then Some(Features)
    else if kind == "contactForm" && variant == "standard" then Some(ContactForm)
    else if kind == "gallery" && variant == "grid" then Some(Gallery)
    else if kind == "footer" && variant == "standard" then Some(Footer)
    else None
  }

  /** A script the table carries is never empty. */
  lemma {:induction false} ScriptNonEmpty(kind: string, variant: string)
    requires Defined(kind, variant)
    ensures Find(kind, variant).value.js.Some? ==> Find(kind, variant).value.js.value != ""
  {
    if kind == "navbar" {
      assert |NavbarJs| > 0;
    } else if kind == "contactForm" {
      assert |ContactJs| > 0;
    }
  }

  /** Markup made of one block of key `k` between parts without markers. */
  predicate OneBlock(ps: seq<Piece>, h: seq<Piece>, k: string, b: seq<Piece>, t: seq<Piece>)
  {
    ps == h + [Open(k)] + b + [Close(k)] + t && NoMarkers(h) && NoMarkers(b) && NoMarkers(t)
  }

  /**
   * The block keys of the table: `navLinks`, `buttons` (both heroes), `items`, `images`
   * and `links`, one block per fragment and none nested; the contact form has no block.
   */
  lemma {:induction false} BlockLayout()
    ensures OneBlock(NavbarHtml, NavbarHead, "navLinks", NavbarBody, NavbarTail)
    ensures OneBlock(HeroCenteredHtml, HeroCenteredHead, "buttons", HeroCenteredBody, HeroCenteredTail)
    ensures OneBlock(HeroImageHtml, HeroImageHead, "buttons", HeroImageBody, HeroImageTail)
    ensures OneBlock(FeaturesHtml, FeaturesHead, "items", FeaturesBody, FeaturesTail)
    ensures NoMarkers(ContactHtml)
    ensures OneBlock(GalleryHtml, GalleryHead, "images", GalleryBody, GalleryTail)
    ensures OneBlock(FooterHtml, FooterHead, "links", FooterBody, FooterTail)
  {
  }

  lemma {:induction false} GoodOneBlock(h: seq<Piece>, k: string, b: seq<Piece>, t: seq<Piece>)
    requires GoodPieces(h) && GoodKey(k) && GoodPieces(b) && GoodPieces(t)
    ensures GoodPieces(h + [Open(k)] + b + [Close(k)] + t)
  {
    GoodConcat(h, [Open(k)]);
    GoodConcat(h + [Open(k)], b);
    GoodConcat(h + [Open(k)] + b, [Close(k)]);
    GoodConcat(h + [Open(k)] + b + [Close(k)], t);
  }

  lemma {:induction false} GoodNavbar()
    ensures GoodPieces(NavbarHtml)
  {
    GoodOneBlock(NavbarHead, "navLinks", NavbarBody, NavbarTail);
  }

  lemma {:induction false} GoodHeroCentered()
    ensures GoodPieces(HeroCenteredHtml)
  {
    GoodOneBlock(HeroCenteredHead, "buttons", HeroCenteredBody, HeroCenteredTail);
  }

  lemma {:induction false} GoodHeroImage()
    ensures GoodPieces(HeroImageHtml)
  {
    GoodOneBlock(HeroImageHead, "buttons", HeroImageBody, HeroImageTail);
  }

  lemma {:induction false} GoodFeatures()
    ensures GoodPieces(FeaturesHtml)
  {
    GoodOneBlock(FeaturesHead, "items", FeaturesBody, FeaturesTail);
  }

  lemma {:induction false} GoodGallery()
    ensures GoodPieces(GalleryHtml)
  {
    GoodOneBlock(GalleryHead, "images", GalleryBody, GalleryTail);
  }

  lemma {:induction false} GoodFooter()
    ensures GoodPieces(FooterHtml)
  {
    GoodOneBlock(FooterHead, "links", FooterBody, FooterTail);
  }

  /** Every placeholder key of the table is a plain key. */
  lemma {:induction false} LibraryGood(kind: string, variant: string)
    requires Defined(kind, variant)
    ensures GoodPieces(Find(kind, variant).value.html)
  {
    GoodNavbar();
    GoodHeroCentered();
    GoodHeroImage();
    GoodFeatures();
    GoodGallery();
    GoodFooter();
  }

  /**
   * features/grid: a record with an `items` array renders as the section heading, then
   * one card per element, then the closing markup. Each card's `{{title}}` shows the
   * section's `title` whenever the record has one, and the element's own only otherwise,
   * because the record's scalar pass runs before the block is expanded.
   */
  lemma {:induction false} FeaturesCards(d: Record, items: seq<Record>, n: nat)
    requires GoodData(d.entries) && DistinctKeys(d.entries)
    requires Lookup(d.entries, "items") == Some(List(items))
    requires forall j :: 0 <= j < |items| ==> FlatGood(items[j].entries)
    requires n < |items|
    ensures var card := PScalar(FeaturesBody, d.entries);
      PRender(FeaturesHtml, d) ==
        PScalar(FeaturesHead, d.entries) +
        (PItems(card, items[..n]) + PScalar(card, items[n].entries) + PItems(card, items[n + 1..])) +
        PScalar(FeaturesTail, d.entries)
    ensures FeaturesHead[1] == Slot("title") && FeaturesBody[3] == Slot("title")
    ensures PScalar(PScalar(FeaturesBody, d.entries), items[n].entries)[3] ==
      if Lookup(d.entries, "title").Some? then Lit(LookupText(d.entries, "title"))
      else Subst(Slot("title"), items[n].entries)
  {
    BlockLayout();
    RenderOneBlock(FeaturesHead, "items", FeaturesBody, FeaturesTail, d);
    PItemsSplit(PScalar(FeaturesBody, d.entries), items, n);
    ScalarTwice(FeaturesBody, d.entries, items[n].entries, 3);
  }

  /**
   * footer/standard: `{{contact.email}}`, `{{contact.phone}}` are slots of their own; the
   * scalar pass looks keys up literally, so a record without those dotted keys leaves
   * them in the page.
   */
  lemma {:induction false} FooterDottedTokens(d: Record)
    requires GoodData(d.entries) && DistinctKeys(d.entries)
    requires Lookup(d.entries, "contact.email").None? && Lookup(d.entries, "contact.phone").None?
    ensures FooterTail[1] == Slot("contact.email") && FooterTail[3] == Slot("contact.phone")
    ensures var r := PRender(FooterHtml, d); var n := |r| - |FooterTail|;
      0 <= n && r[n + 1] == Slot("contact.email") && r[n + 3] == Slot("contact.phone")
  {
    BlockLayout();
    RenderOneBlockEnds(FooterHead, "links", FooterBody, FooterTail, d);
    MissingKeyStays(FooterTail, d.entries, 1);
    MissingKeyStays(FooterTail, d.entries, 3);
  }

  /** The contact script posts to `/api/contact`: the call the preview rewrites. */
  lemma {:induction false} ContactScriptFetch()
    ensures OccursAt(ContactJs, "fetch('/api/", |ContactJsBefore|)
    ensures OccursAt(ContactJs, ContactFetch, |ContactJsBefore|)
  {
    OccursInMiddle(ContactJsBefore, ContactFetch, ContactJsAfter, "fetch('/api/");
  }
}
